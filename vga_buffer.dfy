/**
 * The VGA text-mode writer.
 *
 * The screen is a 25 x 80 grid of cells, each an ASCII byte and a colour byte. The writer always
 * writes into the last row, at its column position; a newline, or a byte written when the row is
 * full, scrolls every row up by one and blanks the last row.
 *
 * The grid and the writer's fields are first described as a pure `WriterState` and the operations
 * as functions on it (`NewLineState`, `WriteByteState`, ...); the `Writer` class holds the grid in
 * an `array2` and each of its methods is proved to have exactly the effect of the matching function.
 */
module VgaBuffer {
  import opened Base

  /** The sixteen VGA text colours. */
  datatype Colour =
    | Black | Blue | Green | Cyan | Red | Magenta | Brown | LightGray
    | DarkGray | LightBlue | LightGreen | LightCyan | LightRed | Pink | Yellow | White

  /** The number of a colour in the VGA palette. */
  function ColourValue(c: Colour): (v: u8)
    ensures v < 16
  {
    match c
    case Black => 0
    case Blue => 1
    case Green => 2
    case Cyan => 3
    case Red => 4
    case Magenta => 5
    case Brown => 6
    case LightGray => 7
    case DarkGray => 8
    case LightBlue => 9
    case LightGreen => 10
    case LightCyan => 11
    case LightRed => 12
    case Pink => 13
    case Yellow => 14
    case White => 15
  }

  /** The colour with palette number `v`. */
  function ColourOf(v: u8): (c: Colour)
    requires v < 16
    ensures ColourValue(c) == v
  {
    match v
    case 0 => Black
    case 1 => Blue
    case 2 => Green
    case 3 => Cyan
    case 4 => Red
    case 5 => Magenta
    case 6 => Brown
    case 7 => LightGray
    case 8 => DarkGray
    case 9 => LightBlue
    case 10 => LightGreen
    case 11 => LightCyan
    case 12 => LightRed
    case 13 => Pink
    case 14 => Yellow
    case 15 => White
  }

  /** A colour byte: the foreground colour in the low nibble, the background in the high nibble. */
  datatype ColourCode = ColourCode(value: u8)

  /**
   * The colour code for `foreground` on `background`: the background in the high nibble and the
   * foreground in the low one. The shift-and-or of the source is written as the equal sum
   * (`ShiftOrIsSum`).
   */
  function NewColourCode(foreground: Colour, background: Colour): (r: ColourCode)
    ensures Foreground(r) == foreground && Background(r) == background
  {
    var fg := ColourValue(foreground);
    var bg := ColourValue(background);
    NibbleSplit(bg as int, fg as int);
    ColourOfValue(foreground);
    ColourOfValue(background);
    ColourCode(16 * bg + fg)
  }

  /** The high and low nibbles of 16 * hi + lo are hi and lo. */
  lemma NibbleSplit(hi: int, lo: int)
    requires 0 <= hi < 16 && 0 <= lo < 16
    ensures (16 * hi + lo) % 16 == lo && (16 * hi + lo) / 16 == hi
  {
  }

  /** `ColourOf` inverts `ColourValue`. */
  lemma ColourOfValue(c: Colour)
    ensures ColourOf(ColourValue(c)) == c
  {
  }

  /** For two 4-bit values, shifting one left by four and or-ing in the other is the same as 16 * hi + lo. */
  lemma ShiftOrIsSum(lo: bv8, hi: bv8)
    requires lo < 16 && hi < 16
    ensures ((hi << 4) | lo) as int == 16 * (hi as int) + (lo as int)
  {
    assert (hi << 4) | lo == 16 * hi + lo;
  }

  /** The foreground colour of a colour code. */
  function Foreground(code: ColourCode): Colour {
    ColourOf(code.value % 16)
  }

  /** The background colour of a colour code. */
  function Background(code: ColourCode): Colour {
    ColourOf(code.value / 16)
  }

  /** A colour code is the code of its own foreground and background. */
  lemma ColourCodeRoundTrip(code: ColourCode)
    ensures NewColourCode(Foreground(code), Background(code)) == code
  {
  }

  /** One cell of the screen. */
  datatype ScreenChar = ScreenChar(asciiCharacter: u8, colourCode: ColourCode)

  const BufferHeight: nat := 25
  const BufferWidth: nat := 80

  /** The row the writer writes into. */
  const LastRow: nat := BufferHeight - 1

  /** The rows above it, where the tests look for the lines written before. */
  const SecondLastRow: nat := BufferHeight - 2
  const ThirdLastRow: nat := BufferHeight - 3

  /** The byte for a line break. */
  const Newline: u8 := 0x0A

  /** The byte written in place of one that is not printable ASCII. */
  const Unprintable: u8 := 0xFE

  /** The cells of the screen, row by row. */
  type Grid = seq<seq<ScreenChar>>

  predicate IsGrid(g: Grid) {
    |g| == BufferHeight && forall r :: 0 <= r < BufferHeight ==> |g[r]| == BufferWidth
  }

  /** Two grids with the same cells are equal. */
  lemma GridExtensionality(g: Grid, h: Grid)
    requires IsGrid(g) && IsGrid(h)
    requires forall r, c :: 0 <= r < BufferHeight && 0 <= c < BufferWidth ==> g[r][c] == h[r][c]
    ensures g == h
  {
    forall r | 0 <= r < BufferHeight
      ensures g[r] == h[r]
    {
      assert forall c :: 0 <= c < BufferWidth ==> g[r][c] == h[r][c];
    }
  }

  /** A blank cell in the colour `colour`. */
  function Blank(colour: ColourCode): ScreenChar {
    ScreenChar(0x20, colour)
  }

  /** A row of blank cells. */
  function BlankRow(colour: ColourCode): (row: seq<ScreenChar>)
    ensures |row| == BufferWidth && forall c :: 0 <= c < BufferWidth ==> row[c] == Blank(colour)
  {
    seq(BufferWidth, _ => Blank(colour))
  }

  /** The screen and the writer's fields. */
  datatype WriterState = WriterState(chars: Grid, columnPosition: nat, colourCode: ColourCode)

  /** The column never passes the end of the row. */
  predicate ValidState(s: WriterState) {
    IsGrid(s.chars) && s.columnPosition <= BufferWidth
  }

  // ---------------------------------------------------------------------------------------------
  // The operations on the pure state.

  /** Row `row` of `g` blanked in `colour`; every other row is kept. */
  function ClearRowGrid(g: Grid, row: nat, colour: ColourCode): (h: Grid)
    requires IsGrid(g) && row < BufferHeight
    ensures IsGrid(h)
    ensures forall c :: 0 <= c < BufferWidth ==> h[row][c] == Blank(colour)
    ensures forall r, c :: 0 <= r < BufferHeight && r != row && 0 <= c < BufferWidth ==> h[r][c] == g[r][c]
  {
    g[row := BlankRow(colour)]
  }

  /**
   * A new line: every row moves up by one (the top row is lost), the last row is blanked in the
   * current colour and the column returns to 0.
   */
  function NewLineState(s: WriterState): (t: WriterState)
    requires ValidState(s)
    ensures ValidState(t) && t.columnPosition == 0 && t.colourCode == s.colourCode
    ensures forall r, c :: 0 <= r < LastRow && 0 <= c < BufferWidth ==> t.chars[r][c] == s.chars[r + 1][c]
    ensures forall c :: 0 <= c < BufferWidth ==> t.chars[LastRow][c] == Blank(s.colourCode)
  {
    WriterState(s.chars[1..] + [BlankRow(s.colourCode)], 0, s.colourCode)
  }

  /** The cell at the column position of the last row written, and the column advanced. */
  function PutByte(s: WriterState, b: u8): (t: WriterState)
    requires ValidState(s) && s.columnPosition < BufferWidth
    ensures ValidState(t) && t.columnPosition == s.columnPosition + 1 && t.colourCode == s.colourCode
    ensures t.chars[LastRow][s.columnPosition] == ScreenChar(b, s.colourCode)
    ensures forall r, c :: 0 <= r < BufferHeight && 0 <= c < BufferWidth && (r, c) != (LastRow, s.columnPosition) ==>
      t.chars[r][c] == s.chars[r][c]
  {
    var row := s.chars[LastRow][s.columnPosition := ScreenChar(b, s.colourCode)];
    s.(chars := s.chars[LastRow := row], columnPosition := s.columnPosition + 1)
  }

  /**
   * Writing one byte: a newline starts a new line; any other byte is put at the column position
   * of the last row in the current colour, after starting a new line if the row is full.
   */
  function WriteByteState(s: WriterState, b: u8): (t: WriterState)
    requires ValidState(s)
    ensures ValidState(t) && t.colourCode == s.colourCode
    ensures b == Newline ==> t == NewLineState(s)
    ensures b != Newline && s.columnPosition < BufferWidth ==>
      && t.columnPosition == s.columnPosition + 1
      && t.chars[LastRow][s.columnPosition] == ScreenChar(b, s.colourCode)
      && forall r, c :: 0 <= r < BufferHeight && 0 <= c < BufferWidth && (r, c) != (LastRow, s.columnPosition) ==>
           t.chars[r][c] == s.chars[r][c]
    ensures b != Newline && s.columnPosition >= BufferWidth ==>
      && t.columnPosition == 1
      && t.chars[LastRow][0] == ScreenChar(b, s.colourCode)
      && (forall c :: 1 <= c < BufferWidth ==> t.chars[LastRow][c] == Blank(s.colourCode))
      && forall r, c :: 0 <= r < LastRow && 0 <= c < BufferWidth ==> t.chars[r][c] == s.chars[r + 1][c]
  {
    if b == Newline then NewLineState(s)
    else if s.columnPosition >= BufferWidth then PutByte(NewLineState(s), b)
    else PutByte(s, b)
  }

  /** Writing a sequence of bytes, one after the other. */
  function WriteBytesState(s: WriterState, bs: seq<u8>): (t: WriterState)
    requires ValidState(s)
    ensures ValidState(t) && t.colourCode == s.colourCode
    decreases |bs|
  {
    if bs == [] then s else WriteByteState(WriteBytesState(s, bs[..|bs| - 1]), bs[|bs| - 1])
  }

  /** The byte `write_string` passes on: printable ASCII and newline unchanged, anything else 0xFE. */
  function Sanitize(b: u8): u8 {
    if 0x20 <= b <= 0x7E || b == Newline then b else Unprintable
  }

  /** The bytes `write_string` writes for the bytes of a string. */
  function Sanitized(bs: seq<u8>): (r: seq<u8>)
    ensures |r| == |bs|
    ensures forall i :: 0 <= i < |bs| && (0x20 <= bs[i] <= 0x7E || bs[i] == Newline) ==> r[i] == bs[i]
    ensures forall i :: 0 <= i < |bs| && !(0x20 <= bs[i] <= 0x7E || bs[i] == Newline) ==> r[i] == Unprintable
  {
    seq(|bs|, i requires 0 <= i < |bs| => Sanitize(bs[i]))
  }

  // ---------------------------------------------------------------------------------------------
  // Properties of the pure operations.

  /**
   * Every byte of the sanitized sequence is printable ASCII, a newline or 0xFE, and a byte is only
   * ever replaced when it is neither printable ASCII nor a newline.
   */
  lemma SanitizedBytes(bs: seq<u8>)
    ensures forall i :: 0 <= i < |bs| ==>
      var b := Sanitized(bs)[i];
      && (0x20 <= b <= 0x7E || b == Newline || b == Unprintable)
      && (b != bs[i] ==> b == Unprintable && !(0x20 <= bs[i] <= 0x7E || bs[i] == Newline))
  {
  }

  /** Sanitizing commutes with concatenation. */
  lemma SanitizedAppend(xs: seq<u8>, ys: seq<u8>)
    ensures Sanitized(xs + ys) == Sanitized(xs) + Sanitized(ys)
  {
  }

  /** Writing the sanitized first `i + 1` bytes is writing the first `i` and then the sanitized byte `i`. */
  lemma SanitizedStep(s: WriterState, bs: seq<u8>, i: nat)
    requires ValidState(s) && i < |bs|
    ensures WriteBytesState(s, Sanitized(bs[..i + 1])) == WriteByteState(WriteBytesState(s, Sanitized(bs[..i])), Sanitize(bs[i]))
  {
    assert Sanitized(bs[..i + 1])[..i] == Sanitized(bs[..i]);
  }

  /** Writing `xs + ys` is writing `xs` and then `ys`. */
  lemma {:induction false} WriteBytesAppend(s: WriterState, xs: seq<u8>, ys: seq<u8>)
    requires ValidState(s)
    ensures WriteBytesState(s, xs + ys) == WriteBytesState(WriteBytesState(s, xs), ys)
    decreases |ys|
  {
    if ys == [] {
      assert xs + ys == xs;
    } else {
      var ys' := ys[..|ys| - 1];
      assert (xs + ys)[..|xs + ys| - 1] == xs + ys';
      WriteBytesAppend(s, xs, ys');
    }
  }

  /**
   * Writing a string in pieces, as formatted output does with one `write_str` per piece, puts the
   * same cells on the screen as writing it at once.
   */
  lemma WriteStringPieces(s: WriterState, xs: seq<u8>, ys: seq<u8>)
    requires ValidState(s)
    ensures WriteBytesState(s, Sanitized(xs + ys)) == WriteBytesState(WriteBytesState(s, Sanitized(xs)), Sanitized(ys))
  {
    SanitizedAppend(xs, ys);
    WriteBytesAppend(s, Sanitized(xs), Sanitized(ys));
  }

  /**
   * Bytes without a newline that fit in the rest of the last row land in consecutive cells of the
   * last row, in the current colour; the column advances by their number and no other cell changes.
   */
  lemma {:induction false} WriteWithinLine(s: WriterState, bs: seq<u8>)
    requires ValidState(s) && s.columnPosition + |bs| <= BufferWidth
    requires forall i :: 0 <= i < |bs| ==> bs[i] != Newline
    ensures var t := WriteBytesState(s, bs);
      && t.columnPosition == s.columnPosition + |bs|
      && (forall i :: 0 <= i < |bs| ==> t.chars[LastRow][s.columnPosition + i] == ScreenChar(bs[i], s.colourCode))
      && (forall r, c ::
            0 <= r < BufferHeight && 0 <= c < BufferWidth && !(r == LastRow && s.columnPosition <= c < s.columnPosition + |bs|)
            ==> t.chars[r][c] == s.chars[r][c])
    decreases |bs|
  {
    if bs != [] {
      var n := |bs| - 1;
      WriteWithinLine(s, bs[..n]);
    }
  }

  /** After bytes that end with a newline, the last row is blank in the writer's colour and the column is 0. */
  lemma EndsWithNewline(s: WriterState, bs: seq<u8>)
    requires ValidState(s) && |bs| > 0 && bs[|bs| - 1] == Newline
    ensures var t := WriteBytesState(s, bs);
      t.columnPosition == 0 && forall c :: 0 <= c < BufferWidth ==> t.chars[LastRow][c] == Blank(s.colourCode)
  {
  }

  /** The cells of a grid. */
  ghost function Cells(g: Grid): set<ScreenChar>
    requires IsGrid(g)
  {
    set r, c | 0 <= r < BufferHeight && 0 <= c < BufferWidth :: g[r][c]
  }

  /** Every cell of `t` was already a cell of `s`, or is in the colour of `s`. */
  ghost predicate OldOrInColour(s: WriterState, t: WriterState)
    requires ValidState(s) && ValidState(t)
  {
    forall r, c :: 0 <= r < BufferHeight && 0 <= c < BufferWidth ==>
      t.chars[r][c] in Cells(s.chars) || t.chars[r][c].colourCode == s.colourCode
  }

  /**
   * Every cell after a write is a cell that was already somewhere on the screen, or is in the
   * writer's colour (written, or blanked by a new line). Where each old cell ends up is stated by
   * `WriteMovesOldRows` and `WriteKeepsLastRowCells`.
   */
  lemma {:induction false} WriteKeepsOldColours(s: WriterState, bs: seq<u8>)
    requires ValidState(s)
    ensures OldOrInColour(s, WriteBytesState(s, bs))
    decreases |bs|
  {
    if bs == [] {
      forall r, c | 0 <= r < BufferHeight && 0 <= c < BufferWidth
        ensures s.chars[r][c] in Cells(s.chars)
      {
      }
    } else {
      var n := |bs| - 1;
      var m := WriteBytesState(s, bs[..n]);
      WriteKeepsOldColours(s, bs[..n]);
      var t := WriteBytesState(s, bs);
      assert t == WriteByteState(m, bs[n]);
      forall r, c | 0 <= r < BufferHeight && 0 <= c < BufferWidth
        ensures t.chars[r][c] in Cells(s.chars) || t.chars[r][c].colourCode == s.colourCode
      {
        var b := bs[n];
        if t.chars[r][c].colourCode != s.colourCode {
          // a cell not in the writer's colour is a cell of `m`, in place or moved up by one row
          if b != Newline && m.columnPosition < BufferWidth {
            assert t.chars[r][c] == m.chars[r][c];
          } else {
            assert r < LastRow;
            assert t.chars[r][c] == m.chars[r + 1][c];
          }
        }
      }
    }
  }

  /** The number of times writing `bs` scrolls the screen: once per newline and once per byte written on a full row. */
  function Scrolls(s: WriterState, bs: seq<u8>): nat
    requires ValidState(s)
    decreases |bs|
  {
    if bs == [] then 0
    else
      var m := WriteBytesState(s, bs[..|bs| - 1]);
      var b := bs[|bs| - 1];
      Scrolls(s, bs[..|bs| - 1]) + if b == Newline || m.columnPosition >= BufferWidth then 1 else 0
  }

  /** Every row of `t` above the last holds the row `k` further down in `s`, when that row was above the last too. */
  ghost predicate MovedUp(s: WriterState, t: WriterState, k: nat)
    requires ValidState(s) && ValidState(t)
  {
    forall r, c :: 0 <= r && r + k < LastRow && 0 <= c < BufferWidth ==> t.chars[r][c] == s.chars[r + k][c]
  }

  /** One byte moves the rows up by one when it scrolls, and leaves the rows above the last alone otherwise. */
  lemma WriteByteMovesRows(m: WriterState, b: u8)
    requires ValidState(m)
    ensures MovedUp(m, WriteByteState(m, b), if b == Newline || m.columnPosition >= BufferWidth then 1 else 0)
  {
  }

  /** Moving rows up by `j` and then by `k` moves them up by `j + k`. */
  lemma MovedUpCompose(s: WriterState, m: WriterState, t: WriterState, j: nat, k: nat)
    requires ValidState(s) && ValidState(m) && ValidState(t)
    requires MovedUp(s, m, j) && MovedUp(m, t, k)
    ensures MovedUp(s, t, j + k)
  {
    forall r, c | 0 <= r && r + j + k < LastRow && 0 <= c < BufferWidth
      ensures t.chars[r][c] == s.chars[r + (j + k)][c]
    {
      assert t.chars[r][c] == m.chars[r + k][c];
      assert m.chars[r + k][c] == s.chars[r + k + j][c];
    }
  }

  /**
   * Writing only ever moves the rows above the last one up, unchanged: after a write that scrolls
   * `k` times, row `r` holds what row `r + k` held whenever that row was above the last row.
   * `WriteKeepsLastRowCells` says the same of the cells already written in the last row.
   */
  lemma {:induction false} WriteMovesOldRows(s: WriterState, bs: seq<u8>)
    requires ValidState(s)
    ensures MovedUp(s, WriteBytesState(s, bs), Scrolls(s, bs))
    decreases |bs|
  {
    if bs == [] {
      assert MovedUp(s, s, 0);
    } else {
      var n := |bs| - 1;
      assert bs[..|bs| - 1] == bs[..n];
      var m := WriteBytesState(s, bs[..n]);
      var step := if bs[n] == Newline || m.columnPosition >= BufferWidth then 1 else 0;
      assert WriteBytesState(s, bs) == WriteByteState(m, bs[n]);
      assert Scrolls(s, bs) == Scrolls(s, bs[..n]) + step;
      WriteMovesOldRows(s, bs[..n]);
      WriteByteMovesRows(m, bs[n]);
      MovedUpCompose(s, m, WriteByteState(m, bs[n]), Scrolls(s, bs[..n]), step);
    }
  }

  /** Bytes that never scroll advance the column by their number. */
  lemma {:induction false} NoScrollAdvancesColumn(s: WriterState, bs: seq<u8>)
    requires ValidState(s) && Scrolls(s, bs) == 0
    ensures WriteBytesState(s, bs).columnPosition == s.columnPosition + |bs|
    decreases |bs|
  {
    if bs != [] {
      var n := |bs| - 1;
      assert bs[..|bs| - 1] == bs[..n];
      var m := WriteBytesState(s, bs[..n]);
      assert WriteBytesState(s, bs) == WriteByteState(m, bs[n]);
      assert Scrolls(s, bs) == Scrolls(s, bs[..n]) + if bs[n] == Newline || m.columnPosition >= BufferWidth then 1 else 0;
      NoScrollAdvancesColumn(s, bs[..n]);
    }
  }

  /**
   * The cells already written in the last row (left of the column) are never overwritten: after a
   * write that scrolls `k` times they sit, unchanged, `k` rows higher. So text written before a
   * change of colour, as `colour_print` leaves it, keeps its characters and its colours.
   */
  lemma {:induction false} WriteKeepsLastRowCells(s: WriterState, bs: seq<u8>, c: nat)
    requires ValidState(s) && c < s.columnPosition && Scrolls(s, bs) <= LastRow
    ensures WriteBytesState(s, bs).chars[LastRow - Scrolls(s, bs)][c] == s.chars[LastRow][c]
    decreases |bs|
  {
    if bs != [] {
      var n := |bs| - 1;
      assert bs[..|bs| - 1] == bs[..n];
      var m := WriteBytesState(s, bs[..n]);
      var step := if bs[n] == Newline || m.columnPosition >= BufferWidth then 1 else 0;
      var k' := Scrolls(s, bs[..n]);
      assert WriteBytesState(s, bs) == WriteByteState(m, bs[n]);
      assert Scrolls(s, bs) == k' + step;
      WriteKeepsLastRowCells(s, bs[..n], c);
      if k' == 0 {
        NoScrollAdvancesColumn(s, bs[..n]);
      }
      WriteByteKeepsCell(m, bs[n], LastRow - k', c);
    }
  }

  /**
   * One byte keeps the cell at `row`, `c`: one row higher if it scrolls, in place otherwise. In the
   * last row this holds for the cells left of the column.
   */
  lemma WriteByteKeepsCell(m: WriterState, b: u8, row: nat, c: nat)
    requires ValidState(m) && row < BufferHeight && c < BufferWidth
    requires row < LastRow || c < m.columnPosition
    requires b == Newline || m.columnPosition >= BufferWidth ==> row >= 1
    ensures var step := if b == Newline || m.columnPosition >= BufferWidth then 1 else 0;
      WriteByteState(m, b).chars[row - step][c] == m.chars[row][c]
  {
  }

  // ---------------------------------------------------------------------------------------------
  // The scenarios of the unit tests, on a screen filled with one cell.

  /** A writer at column 0 on a screen whose every cell is `fill`. */
  function FreshState(colour: ColourCode, fill: ScreenChar): (s: WriterState)
    ensures ValidState(s) && s.columnPosition == 0 && s.colourCode == colour
    ensures forall r, c :: 0 <= r < BufferHeight && 0 <= c < BufferWidth ==> s.chars[r][c] == fill
  {
    WriterState(seq(BufferHeight, _ => seq(BufferWidth, _ => fill)), 0, colour)
  }

  /** The blue-on-magenta writer of the tests. */
  function TestColour(): ColourCode {
    NewColourCode(Blue, Magenta)
  }

  /** The green-on-brown blank the test screens are filled with. */
  function EmptyChar(): ScreenChar {
    ScreenChar(0x20, NewColourCode(Green, Brown))
  }

  /** Writing 'X' then 'Y' fills the first two cells of the last row; nothing else changes. */
  lemma WriteByteScenario()
    ensures var t := WriteBytesState(FreshState(TestColour(), EmptyChar()), [0x58, 0x59]);
      forall r, c :: 0 <= r < BufferHeight && 0 <= c < BufferWidth ==>
        t.chars[r][c] ==
          if r == LastRow && c == 0 then ScreenChar(0x58, TestColour())
          else if r == LastRow && c == 1 then ScreenChar(0x59, TestColour())
          else EmptyChar()
  {
    WriteWithinLine(FreshState(TestColour(), EmptyChar()), [0x58, 0x59]);
  }

  /**
   * A line of bytes without a newline followed by a newline: the bytes end up in row 23 from
   * column 0, the rest of row 23 is what was in row 24 after them, and every other row moves up.
   */
  lemma WriteLine(s: WriterState, bs: seq<u8>)
    requires ValidState(s) && s.columnPosition == 0 && |bs| <= BufferWidth
    requires forall i :: 0 <= i < |bs| ==> bs[i] != Newline
    ensures var t := WriteBytesState(s, bs + [Newline]);
      && t.columnPosition == 0 && t.colourCode == s.colourCode
      && (forall i :: 0 <= i < |bs| ==> t.chars[SecondLastRow][i] == ScreenChar(bs[i], s.colourCode))
      && (forall c :: |bs| <= c < BufferWidth ==> t.chars[SecondLastRow][c] == s.chars[LastRow][c])
      && (forall r, c :: 0 <= r < SecondLastRow && 0 <= c < BufferWidth ==> t.chars[r][c] == s.chars[r + 1][c])
      && (forall c :: 0 <= c < BufferWidth ==> t.chars[LastRow][c] == Blank(s.colourCode))
  {
    var m := WriteBytesState(s, bs);
    WriteWithinLine(s, bs);
    assert (bs + [Newline])[..|bs|] == bs;
  }

  /**
   * "a\n" then "bc\n": 'a' in row 22, "bc" in row 23, the rest of rows 23 and 24 blank in the
   * writer's colour, every other cell as before.
   */
  lemma WriteFormattedScenario()
    ensures var s := FreshState(TestColour(), EmptyChar());
      var t := WriteBytesState(WriteBytesState(s, Sanitized([0x61, Newline])), Sanitized([0x62, 0x63, Newline]));
      forall r, c :: 0 <= r < BufferHeight && 0 <= c < BufferWidth ==>
        t.chars[r][c] ==
          if r == ThirdLastRow && c == 0 then ScreenChar(0x61, TestColour())
          else if r == SecondLastRow && c == 0 then ScreenChar(0x62, TestColour())
          else if r == SecondLastRow && c == 1 then ScreenChar(0x63, TestColour())
          else if r >= SecondLastRow then Blank(TestColour())
          else EmptyChar()
  {
    var s := FreshState(TestColour(), EmptyChar());
    assert Sanitized([0x61, Newline]) == [0x61, Newline];
    assert Sanitized([0x62, 0x63, Newline]) == [0x62, 0x63, Newline];
    var m := WriteBytesState(s, [0x61, Newline]);
    WriteLine(s, [0x61]);
    assert [0x61] + [Newline] == [0x61, Newline];
    WriteLine(m, [0x62, 0x63]);
    assert [0x62, 0x63] + [Newline] == [0x62, 0x63, Newline];
    var t := WriteBytesState(m, [0x62, 0x63, Newline]);
    forall r, c | 0 <= r < BufferHeight && 0 <= c < BufferWidth
      ensures t.chars[r][c] ==
          if r == ThirdLastRow && c == 0 then ScreenChar(0x61, TestColour())
          else if r == SecondLastRow && c == 0 then ScreenChar(0x62, TestColour())
          else if r == SecondLastRow && c == 1 then ScreenChar(0x63, TestColour())
          else if r >= SecondLastRow then Blank(TestColour())
          else EmptyChar()
    {
      if r < SecondLastRow {
        assert t.chars[r][c] == m.chars[r + 1][c];
      } else if r == SecondLastRow && c < 2 {
        assert [0x62, 0x63][c] == [0x62, 0x63][c];
      }
    }
  }

  /**
   * "a\n" in one colour, then "b\n" in another: 'a' keeps the first colour and 'b' has the second.
   * The rest of row 23 was blanked by the first newline, so it is blank in the first colour; the last
   * row is blank in the second.
   */
  lemma ChangeColoursScenario()
    ensures var s := FreshState(TestColour(), EmptyChar());
      var m := WriteBytesState(s, Sanitized([0x61, Newline]));
      var t := WriteBytesState(m.(colourCode := NewColourCode(Red, Pink)), Sanitized([0x62, Newline]));
      forall r, c :: 0 <= r < BufferHeight && 0 <= c < BufferWidth ==>
        t.chars[r][c] ==
          if r == ThirdLastRow && c == 0 then ScreenChar(0x61, TestColour())
          else if r == SecondLastRow && c == 0 then ScreenChar(0x62, NewColourCode(Red, Pink))
          else if r == SecondLastRow then Blank(TestColour())
          else if r == LastRow then Blank(NewColourCode(Red, Pink))
          else EmptyChar()
  {
    var s := FreshState(TestColour(), EmptyChar());
    assert Sanitized([0x61, Newline]) == [0x61, Newline];
    assert Sanitized([0x62, Newline]) == [0x62, Newline];
    var m := WriteBytesState(s, [0x61, Newline]);
    WriteLine(s, [0x61]);
    assert [0x61] + [Newline] == [0x61, Newline];
    var m' := m.(colourCode := NewColourCode(Red, Pink));
    WriteLine(m', [0x62]);
    assert [0x62] + [Newline] == [0x62, Newline];
    var t := WriteBytesState(m', [0x62, Newline]);
    forall r, c | 0 <= r < BufferHeight && 0 <= c < BufferWidth
      ensures t.chars[r][c] ==
          if r == ThirdLastRow && c == 0 then ScreenChar(0x61, TestColour())
          else if r == SecondLastRow && c == 0 then ScreenChar(0x62, NewColourCode(Red, Pink))
          else if r == SecondLastRow then Blank(TestColour())
          else if r == LastRow then Blank(NewColourCode(Red, Pink))
          else EmptyChar()
    {
      if r < SecondLastRow {
        assert t.chars[r][c] == m'.chars[r + 1][c];
        assert [0x61][0] == 0x61;
      } else if r == SecondLastRow && c == 0 {
        assert [0x62][0] == 0x62;
      }
    }
  }

  /** `n` copies of `bs`, one after the other. */
  function Repeat(bs: seq<u8>, n: nat): (r: seq<u8>)
    ensures |r| == n * |bs|
  {
    if n == 0 then [] else Repeat(bs, n - 1) + bs
  }

  /** After 25 lines of "Test\n" the last row is blank in the writer's colour. */
  lemma TopLineShiftScenario()
    ensures var t := WriteBytesState(FreshState(TestColour(), EmptyChar()), Sanitized(Repeat([0x54, 0x65, 0x73, 0x74, Newline], 25)));
      forall c :: 0 <= c < BufferWidth ==> t.chars[LastRow][c] == Blank(TestColour())
  {
    var bs := Sanitized(Repeat([0x54, 0x65, 0x73, 0x74, Newline], 25));
    assert Repeat([0x54, 0x65, 0x73, 0x74, Newline], 25)[|bs| - 1] == Newline;
    assert bs[|bs| - 1] == Newline;
    EndsWithNewline(FreshState(TestColour(), EmptyChar()), bs);
  }

  /** "ö\n" (the bytes C3 B6 0A) prints 0xFE in row 23, column 0, in the writer's colour. */
  lemma NonAsciiScenario()
    ensures var t := WriteBytesState(FreshState(TestColour(), EmptyChar()), Sanitized([0xC3, 0xB6, Newline]));
      t.chars[SecondLastRow][0] == ScreenChar(Unprintable, TestColour())
  {
    var bs := Sanitized([0xC3, 0xB6, Newline]);
    assert bs == [Unprintable, Unprintable] + [Newline];
    WriteLine(FreshState(TestColour(), EmptyChar()), [Unprintable, Unprintable]);
    assert [Unprintable, Unprintable][0] == Unprintable;
  }

  // ---------------------------------------------------------------------------------------------
  // The writer.

  /** The writer: its column in the last row, its colour, and the screen it owns. */
  class Writer {
    var columnPosition: nat
    var colourCode: ColourCode
    const buffer: array2<ScreenChar>

    ghost predicate Valid()
      reads this
    {
      buffer.Length0 == BufferHeight && buffer.Length1 == BufferWidth && columnPosition <= BufferWidth
    }

    /** The screen's cells as a grid. */
    ghost function Grid(): (g: Grid)
      reads buffer
      requires buffer.Length0 == BufferHeight && buffer.Length1 == BufferWidth
      ensures IsGrid(g)
      ensures forall r, c :: 0 <= r < BufferHeight && 0 <= c < BufferWidth ==> g[r][c] == buffer[r, c]
    {
      seq(BufferHeight, r reads buffer requires 0 <= r < BufferHeight =>
        seq(BufferWidth, c reads buffer requires 0 <= c < BufferWidth => buffer[r, c]))
    }

    /** The writer as a pure state. */
    ghost function State(): (s: WriterState)
      reads this, buffer
      requires Valid()
      ensures ValidState(s)
    {
      WriterState(Grid(), columnPosition, colourCode)
    }

    /** A writer at column 0 in colour `colourCode`, on a screen whose every cell is `fill`. */
    constructor(colourCode: ColourCode, fill: ScreenChar)
      ensures Valid() && fresh(buffer)
      ensures State() == FreshState(colourCode, fill)
    {
      this.columnPosition := 0;
      this.colourCode := colourCode;
      buffer := new ScreenChar[BufferHeight, BufferWidth]((_, _) => fill);
      new;
      GridExtensionality(Grid(), FreshState(colourCode, fill).chars);
    }

    /** Writes one byte. */
    method WriteByte(b: u8)
      requires Valid()
      modifies this, buffer
      ensures Valid() && State() == WriteByteState(old(State()), b)
    {
      if b == Newline {
        NewLine();
      } else {
        if columnPosition >= BufferWidth {
          NewLine();
        }
        ghost var s := State();
        buffer[LastRow, columnPosition] := ScreenChar(b, colourCode);
        columnPosition := columnPosition + 1;
        GridExtensionality(Grid(), PutByte(s, b).chars);
      }
    }

    /** Writes the bytes of a string, each non-printable one as 0xFE. */
    method WriteString(bs: seq<u8>)
      requires Valid()
      modifies this, buffer
      ensures Valid() && State() == WriteBytesState(old(State()), Sanitized(bs))
    {
      for i := 0 to |bs|
        invariant Valid()
        invariant State() == WriteBytesState(old(State()), Sanitized(bs[..i]))
      {
        var b := bs[i];
        if 0x20 <= b <= 0x7E || b == Newline {
          WriteByte(b);
        } else {
          WriteByte(Unprintable);
        }
        SanitizedStep(old(State()), bs, i);
      }
      assert bs[..|bs|] == bs;
    }

    /** Moves every row up by one, blanks the last row and returns to column 0. */
    method NewLine()
      requires Valid()
      modifies this, buffer
      ensures Valid() && State() == NewLineState(old(State()))
    {
      for row := 1 to BufferHeight
        invariant Valid() && columnPosition == old(columnPosition) && colourCode == old(colourCode)
        invariant forall r, c :: 0 <= r < row - 1 && 0 <= c < BufferWidth ==> buffer[r, c] == old(buffer[r + 1, c])
        invariant forall r, c :: row - 1 <= r < BufferHeight && 0 <= c < BufferWidth ==> buffer[r, c] == old(buffer[r, c])
      {
        var above := row - 1;
        for col := 0 to BufferWidth
          invariant Valid() && columnPosition == old(columnPosition) && colourCode == old(colourCode)
          invariant forall r, c :: 0 <= r < above && 0 <= c < BufferWidth ==> buffer[r, c] == old(buffer[r + 1, c])
          invariant forall c :: 0 <= c < col ==> buffer[above, c] == old(buffer[row, c])
          invariant forall c :: col <= c < BufferWidth ==> buffer[above, c] == old(buffer[above, c])
          invariant forall r, c :: row <= r < BufferHeight && 0 <= c < BufferWidth ==> buffer[r, c] == old(buffer[r, c])
        {
          buffer[above, col] := buffer[row, col];
        }
      }
      ClearRow(LastRow);
      columnPosition := 0;
      GridExtensionality(Grid(), NewLineState(old(State())).chars);
    }

    /** Blanks row `row` in the current colour. */
    method ClearRow(row: nat)
      requires Valid() && row < BufferHeight
      modifies buffer
      ensures Valid() && Grid() == ClearRowGrid(old(Grid()), row, colourCode)
    {
      for col := 0 to BufferWidth
        invariant forall c :: 0 <= c < col ==> buffer[row, c] == Blank(colourCode)
        invariant forall r, c :: 0 <= r < BufferHeight && 0 <= c < BufferWidth && !(r == row && c < col) ==>
          buffer[r, c] == old(buffer[r, c])
      {
        buffer[row, col] := Blank(colourCode);
      }
      GridExtensionality(Grid(), ClearRowGrid(old(Grid()), row, colourCode));
    }

    /** Switches to another colour for the cells written from now on. */
    method ChangeColours(newColourCode: ColourCode)
      modifies this
      ensures colourCode == newColourCode && columnPosition == old(columnPosition)
    {
      colourCode := newColourCode;
    }

    /** The colour the writer writes in. */
    method GetColour() returns (c: ColourCode)
      ensures c == colourCode
    {
      c := colourCode;
    }

    /**
     * Writes a string in `foreground` on `background` and then returns to the writer's own colour:
     * the screen is as if the string were written in the new colour, and the colour is restored.
     */
    method ColourPrint(bs: seq<u8>, foreground: Colour, background: Colour)
      requires Valid()
      modifies this, buffer
      ensures Valid() && colourCode == old(colourCode)
      ensures State() ==
        WriteBytesState(old(State()).(colourCode := NewColourCode(foreground, background)), Sanitized(bs)).(colourCode := old(colourCode))
    {
      var oldColourCode := GetColour();
      var newColourCode := NewColourCode(foreground, background);
      ChangeColours(newColourCode);
      assert State() == old(State()).(colourCode := newColourCode);
      WriteString(bs);
      ghost var written := State();
      ChangeColours(oldColourCode);
      assert State() == written.(colourCode := oldColourCode);
    }
  }
}
