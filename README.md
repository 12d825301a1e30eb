# ostridge: PS/2 keyboard decoder and VGA text writer in Dafny

This project models two pieces of the ostridge x86-64 hobby kernel and proves properties of them.

- **PS/2 scan code set 1 decoder** (`PS2Scancodes`, in `ps2_scancodes.dfy`). It turns one raw
  keyboard byte at a time into a key event: an optional character, an optional control key, a
  `pressed` flag and a `keypad` flag. The only state it keeps is the selected scan code set and the
  `doubleCode` flag. The escape byte 0xE0 sets that flag, and it selects the extended meaning of
  the next byte.
  - `Decode(set, flag, byte)` is a pure function. It returns the event and the new flag.
  - The `PS2ScancodeReader` class has the two fields of the Rust struct. Its `MatchScancode` method
    is proved to do exactly what `Decode` says.
  - The table is the Rust `match`, arm for arm. It is split into four range functions that follow
    the source's own sections: presses, escape-only presses, releases and escape-only releases.
  - Lemmas over all 256 bytes state:
    - which bytes name a key;
    - that presses are the bytes below 0x80;
    - how the escape flag changes;
    - that a press and its release name the same key;
    - which bytes depend on a pending escape;
    - the number row and the keypad block;
    - the two deliberate asymmetries of the escaped table.
- **VGA text writer** (`VgaBuffer`, in `vga_buffer.dfy`). It writes bytes into the last row of a
  25 × 80 grid of (ASCII byte, colour byte) cells. A newline, or a byte written when the row is
  full, scrolls every row up by one and blanks the last row.
  - The pure `WriterState` and its functions (`NewLineState`, `WriteByteState`,
    `WriteBytesState`, ...) say what each operation does, cell by cell.
  - The `Writer` class keeps the grid in an `array2`. Each of its methods, with the Rust loops,
    is proved to have exactly the effect of the matching function.
  - Lemmas state further properties:
    - the colour byte's layout;
    - writing in pieces;
    - that rows above the last move up unchanged, and the cells already written in the last row move up with them, so cells keep their characters and colours after the colour is changed;
    - the five unit-test scenarios of the source, three of them as whole-grid statements.
- `Base` (`base.dfy`) holds Rust's `u8` and `Option`.

**A pending escape survives a byte with no arm.** One might expect the byte after 0xE0 to
clear the escape flag whatever that byte is. The code clears it only in `create_key` and
`create_control_key`. So a byte with no arm (for example 0x54), or an escape-only code when no
escape is pending, leaves the flag exactly as it was. The model follows the code:
- `UnknownByteKeepsFlag` states that such a byte leaves the flag unchanged;
- `StaleEscape` shows the input sequence E0 54 1D reporting Right Ctrl.

In the running kernel this never shows. The keyboard interrupt handler builds a fresh reader for
every byte (`ostridge/src/interrupts.rs:95`), so no flag survives between bytes.

## Model

| member | source | states |
|---|---|---|
| PS2Scancodes.Perform | ostridge/src/ps_2_scancodes.rs:106-114 | An event never carries both a character and a control key. It names a key exactly when the arm builds one, and then the flag is cleared and `pressed`/`keypad` come from the arm. Otherwise the event is empty and the flag is kept, or set by the escape arm. |
| PS2Scancodes.Decode | ostridge/src/ps_2_scancodes.rs:97-104 | Outside set 1 every byte gives the empty event and keeps the flag. In every set an event carrying a key clears the flag, and an empty event never clears a pending escape. |
| PS2Scancodes.PS2ScancodeReader.constructor | ostridge/src/ps_2_scancodes.rs:89-91 | A new reader has the given set and no escape pending. |
| PS2Scancodes.PS2ScancodeReader.SetScancodeSet | ostridge/src/ps_2_scancodes.rs:93-95 | Only the set changes; a pending escape stays pending. |
| PS2Scancodes.PS2ScancodeReader.MatchScancode | ostridge/src/ps_2_scancodes.rs:97-104 | The returned event and the new flag are exactly `Decode` of the old set, the old flag and the byte. The set is unchanged. |
| PS2Scancodes.PS2ScancodeReader.CreateKey | ostridge/src/ps_2_scancodes.rs:106-109 | Returns the character event and clears the flag. |
| PS2Scancodes.PS2ScancodeReader.CreateControlKey | ostridge/src/ps_2_scancodes.rs:111-114 | Returns the control-key event and clears the flag. |
| PS2Scancodes.PS2ScancodeReader.MatchSet1Scancode | ostridge/src/ps_2_scancodes.rs:116-812 | Performing the table's arm on the reader gives exactly `DecodeSet1` of the old flag and the byte. |
| PS2Scancodes.Set1Classification | ostridge/src/ps_2_scancodes.rs:116-812 | For every byte and flag in set 1, an event names a key if and only if the byte is a plain make or break code (0x01–0x53, 0x57, 0x58 and their releases), or an escape-only code (0x5B–0x5F, 0x63, 0x65–0x6D and releases) with an escape pending. Such an event has `pressed` exactly when the byte is below 0x80. Every other byte gives the empty event. The new flag is set exactly when no key was named and either an escape was pending or the byte is 0xE0. |
| PS2Scancodes.EscapeByteSetsFlag | ostridge/src/ps_2_scancodes.rs:803-807 | 0xE0 gives the empty event and leaves an escape pending, whatever the flag was. |
| PS2Scancodes.UnknownByteKeepsFlag | ostridge/src/ps_2_scancodes.rs:355-808 | A byte with no arm, and an escape-only code without an escape, give the empty event and leave the flag unchanged (set or not). |
| PS2Scancodes.PlainPressReleasePairing | ostridge/src/ps_2_scancodes.rs:462-692 | With no escape pending, for every press code c the release code c + 0x80 gives the event of c with `pressed` false, and c names a key exactly when it is a plain make code. |
| PS2Scancodes.EscapedPressReleasePairing | ostridge/src/ps_2_scancodes.rs:134-798 | With an escape pending the same pairing holds for every press code except 0x2A and 0x37. |
| PS2Scancodes.EscapeSensitivity | ostridge/src/ps_2_scancodes.rs:119-798 | A byte's event depends on a pending escape if and only if the byte is escape-sensitive. These are the listed presses, the escape-only codes and their releases, except the release 0xAA, plus the release 0xB7. |
| PS2Scancodes.NumberRow | ostridge/src/ps_2_scancodes.rs:120-131 | Codes 0x02–0x0D are the presses of '1'…'9', '0', '-', '=', not on the keypad, with or without an escape pending, and they clear the flag. |
| PS2Scancodes.KeypadBlock | ostridge/src/ps_2_scancodes.rs:277-349 | Without an escape, 0x47–0x53 are the keypad characters "789-456+1230.". After an escape they are Home, Up, PageUp, Left, Right, End, Down, PageDown, Insert and Delete, not flagged as keypad; '-', '5' and '+' are the same as without the escape. |
| PS2Scancodes.EscapedEnter | ostridge/src/ps_2_scancodes.rs:160-167 | 0x1C is Enter; it is flagged as keypad only after an escape. |
| PS2Scancodes.EscapedCtrl | ostridge/src/ps_2_scancodes.rs:168-175 | 0x1D is Left Ctrl without an escape and Right Ctrl after one. |
| PS2Scancodes.EscapedAlt | ostridge/src/ps_2_scancodes.rs:256-262 | 0x38 is Left Alt without an escape and Right Alt after one. |
| PS2Scancodes.EscapedShiftAsymmetry | ostridge/src/ps_2_scancodes.rs:212-551 | After an escape 0x2A is the Print Screen press, while 0xAA is still the Left Shift release. |
| PS2Scancodes.EscapedStarAsymmetry | ostridge/src/ps_2_scancodes.rs:255-594 | After an escape 0x37 is still the keypad '*' press, while 0xB7 is the Print Screen release. |
| PS2Scancodes.StaleEscape | ostridge/src/ps_2_scancodes.rs:803-808 | E0 then 54 leaves the escape pending, so a following 1D is Right Ctrl. |
| VgaBuffer.ColourValue | ostridge/src/vga_buffer.rs:14-31 | Every colour's palette number is below 16. |
| VgaBuffer.ColourOf | ostridge/src/vga_buffer.rs:14-31 | For every number below 16, the colour with that number has that number. |
| VgaBuffer.NewColourCode | ostridge/src/vga_buffer.rs:47-49 | The low nibble of the code is the foreground and the high nibble is the background. |
| VgaBuffer.ShiftOrIsSum | ostridge/src/vga_buffer.rs:47-49 | For 4-bit values, the source's form (the high value shifted left by four, or-ed with the low one) equals `16 * hi + lo` as an integer, the form the model uses. |
| VgaBuffer.ColourCodeRoundTrip | ostridge/src/vga_buffer.rs:35-49 | Every colour byte is the code of its own foreground and background. |
| VgaBuffer.ClearRowGrid | ostridge/src/vga_buffer.rs:146-155 | The row is blank in the given colour; every other row is kept. |
| VgaBuffer.NewLineState | ostridge/src/vga_buffer.rs:129-139 | Each row r < 24 holds the old row r + 1, so the old top row is lost. Row 24 is blank in the writer's colour, and the column is 0. |
| VgaBuffer.PutByte | ostridge/src/vga_buffer.rs:99-107 | The cell at the column of row 24 holds the byte in the writer's colour. The column advances by one, and no other cell changes. |
| VgaBuffer.WriteByteState | ostridge/src/vga_buffer.rs:88-110 | A newline is a new line. Another byte with room in the row goes to row 24 at the column, the column advances, and nothing else changes. With the row full, the rows scroll up first and the byte lands at column 0 with the column at 1. The column stays within 0..80. |
| VgaBuffer.WriteBytesState | ostridge/src/vga_buffer.rs:117-126 | Writing any bytes keeps the column within 0..80 and the colour unchanged. |
| VgaBuffer.Sanitized | ostridge/src/vga_buffer.rs:117-126 | The result has the input's length. Printable ASCII (0x20–0x7E) and newline bytes pass through unchanged, and every other byte becomes 0xFE. |
| VgaBuffer.SanitizedBytes | ostridge/src/vga_buffer.rs:119-124 | Every byte passed on is printable ASCII, a newline or 0xFE. A byte is replaced only when it is neither printable ASCII nor a newline. |
| VgaBuffer.WriteBytesAppend | ostridge/src/vga_buffer.rs:117-126 | Writing xs + ys is writing xs and then ys. |
| VgaBuffer.WriteStringPieces | ostridge/src/vga_buffer.rs:173-179 | Writing a string in several `write_str` pieces gives the same screen as writing it at once. |
| VgaBuffer.WriteWithinLine | ostridge/src/vga_buffer.rs:88-110 | Bytes without a newline that fit in the row land in consecutive cells of row 24 in the writer's colour. The column advances by their number, and no other cell changes. |
| VgaBuffer.EndsWithNewline | ostridge/src/vga_buffer.rs:129-139 | After bytes ending in a newline, row 24 is blank in the writer's colour and the column is 0. |
| VgaBuffer.WriteKeepsOldColours | ostridge/src/vga_buffer.rs:161-163 | Every cell after any write is either a cell that was already on the screen, or in the writer's current colour. |
| VgaBuffer.WriteMovesOldRows | ostridge/src/vga_buffer.rs:129-139 | After a write that scrolls k times (once per newline, once per byte written on a full row), row r holds exactly the old row r + k whenever that old row was above the last row. |
| VgaBuffer.NoScrollAdvancesColumn | ostridge/src/vga_buffer.rs:88-110 | Bytes that never scroll advance the column by exactly their number. |
| VgaBuffer.WriteKeepsLastRowCells | ostridge/src/vga_buffer.rs:88-139 | Every cell left of the column in the last row survives any later write unchanged: after k scrolls (k at most 24) it is k rows higher. Together with `WriteMovesOldRows`, cells written before a colour change, such as the text `colour_print` leaves when it restores the colour, keep their characters and colours. |
| VgaBuffer.FreshState | ostridge/src/vga_buffer.rs:290-315 | The tests' writer: column 0, the given colour, every cell the given fill. |
| VgaBuffer.WriteByteScenario | ostridge/src/vga_buffer.rs:317-338 | After 'X', 'Y', the cells (24,0) and (24,1) hold them in the writer's colour and every other cell is the fill. |
| VgaBuffer.WriteLine | ostridge/src/vga_buffer.rs:340-368 | A line of at most 80 bytes followed by a newline ends up in row 23 from column 0. The rest of row 23 is the old row 24, other rows move up, and row 24 is blank. |
| VgaBuffer.WriteFormattedScenario | ostridge/src/vga_buffer.rs:340-368 | After "a\n" and "bc\n", each passed through `write_string`'s byte mapping: 'a' is at (22,0), "bc" at (23,0..1), the rest of rows 23–24 is blank in the writer's colour, and every other cell is the fill. |
| VgaBuffer.ChangeColoursScenario | ostridge/src/vga_buffer.rs:370-402 | "a\n" in one colour then "b\n" in another: 'a' keeps the first colour and 'b' has the second. The rest of row 23 is blank in the first colour, row 24 is blank in the second, and every other cell is the fill. |
| VgaBuffer.TopLineShiftScenario | ostridge/src/vga_buffer.rs:404-423 | After 25 lines of "Test\n" through `write_string`'s byte mapping, row 24 is blank in the writer's colour. |
| VgaBuffer.NonAsciiScenario | ostridge/src/vga_buffer.rs:425-442 | "ö\n" (bytes C3 B6 0A) puts 0xFE at (23,0) in the writer's colour. |
| VgaBuffer.Writer.constructor | ostridge/src/vga_buffer.rs:290-315 | A new writer is `FreshState` of its colour and fill. |
| VgaBuffer.Writer.WriteByte | ostridge/src/vga_buffer.rs:88-110 | The new screen, column and colour are `WriteByteState` of the old ones. |
| VgaBuffer.Writer.WriteString | ostridge/src/vga_buffer.rs:117-126 | The new state is the old one after writing the mapped bytes one by one. |
| VgaBuffer.Writer.NewLine | ostridge/src/vga_buffer.rs:129-139 | The new state is `NewLineState` of the old one. |
| VgaBuffer.Writer.ClearRow | ostridge/src/vga_buffer.rs:146-155 | The new grid is `ClearRowGrid` of the old one, in the writer's colour. |
| VgaBuffer.Writer.ChangeColours | ostridge/src/vga_buffer.rs:161-163 | The colour becomes the new one; the column is unchanged. |
| VgaBuffer.Writer.GetColour | ostridge/src/vga_buffer.rs:166-168 | Returns the writer's colour. |
| VgaBuffer.Writer.ColourPrint | ostridge/src/vga_buffer.rs:278-284 | The colour afterwards is the original one. The screen and column are those of writing the string in the requested colour. |

## Left out

- The global `WRITER` (`lazy_static`, `spin::Mutex`, the physical address 0xb8000) is left out. So are the `Volatile` wrapper and the `Buffer` struct: the model's buffer is a plain `array2` owned by the writer.
- `core::fmt` formatting, `print`, and the `print!`, `println!` and `colour_print!` macros are left out. `Writer.ColourPrint` takes the bytes the formatted arguments produce. `WriteStringPieces` covers formatting that splits them across several `write_str` calls.
- `Writer.ColourPrint`: the source takes the mutex separately for each of its steps. The model runs them as one method; scheduling between the steps is not modelled.
- `Writer.WriteString` takes the bytes of the string. The `&str` to UTF-8 byte conversion is not modelled, so any byte sequence is accepted.
- `Writer.ClearRow`: requires `row < 25`. The source would panic on a larger row, and it only ever clears row 24.
- The diagnostic `print!("Double Code!")` of the 0xE0 arm is output only. It is dropped.
- `PS2_PORT_ADDR` is only a port number.
- `interrupts.rs`, `main.rs`, `serial.rs`, `lib.rs` and `bin/test-panic.rs` are not part of this model. They are descriptor tables, interrupt controller and port I/O, boot glue, the serial port, QEMU exit and halt, and a test entry point: hardware and foreign crates.
- `ScanCodeSet`'s numeric discriminants and `ControlKey`'s are not modelled. The decoder never uses them.
