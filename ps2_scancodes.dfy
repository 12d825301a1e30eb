/**
 * Decoder for PS/2 keyboard scan code set 1.
 *
 * The reader keeps the selected scan code set and one flag, `doubleCode`, which is set by the
 * escape byte 0xE0 and tells the decoding of the next byte to use the extended (two-byte) meaning.
 * The decoding of one byte is the pure function `Decode`; the stateful reader's `MatchScancode`
 * is specified by it.
 */
module PS2Scancodes {
  import opened Base

  /** The scan code sets a PS/2 keyboard can be switched to; only set 1 is decoded. */
  datatype ScanCodeSet = Set1 | Set2 | Set3

  /** Keys that do not stand for a printable character. */
  datatype ControlKey =
    | Escape | Backspace | Tab | Enter | LeftCtrl | LeftShift | RightShift | LeftAlt | CapsLock
    | F1 | F2 | F3 | F4 | F5 | F6 | F7 | F8 | F9 | F10
    | NumberLock | ScrollLock | F11 | F12
    | MultimediaPrevTrack | MultimediaNextTrack | RightCtrl | MultimediaMute | MultimediaCalculator
    | MultimediaPlay | MultimediaStop | MultimediaVolumeDown | MultimediaVolumeUp | MultimediaWWWHome
    | RightAlt | Home | CursorUp | PageUp | CursorLeft | CursorRight | End | CursorDown | PageDown
    | Insert | Delete | LeftGUI | RightGUI | Apps | ACPIPower | ACPISleep | ACPIWake
    | MultimediaWWWSearch | MultimediaWWWFavourites | MultimediaWWWRefresh | MultimediaWWWStop
    | MultimediaWWWForward | MultimediaWWWBack | MultimediaMyComputer | MultimediaEmail
    | MultimediaSelect | PrintScreen

  /** One decoded key event: `pressed` is false on a release, `keypad` marks keys of the numeric keypad. */
  datatype PS2Key = PS2Key(key: Option<char>, controlKey: Option<ControlKey>, pressed: bool, keypad: bool)

  /** The event with neither a character nor a control key, which callers discard. */
  const EmptyKey := PS2Key(None, None, false, false)

  /** The escape byte that announces a two-byte sequence. */
  const EscapePrefix: u8 := 0xE0

  /** An event that names a key. */
  predicate Resolved(k: PS2Key) {
    k.key.Some? || k.controlKey.Some?
  }

  /** The event for the release of the key that `k` reports as pressed. */
  function Released(k: PS2Key): PS2Key {
    k.(pressed := false)
  }

  /** The result of decoding one byte: the event and the new value of the escape flag. */
  datatype Decoded = Decoded(key: PS2Key, doubleCode: bool)

  /** What one arm of the set 1 table does. */
  datatype Arm =
    | CharArm(key: char, pressed: bool, keypad: bool)
    | ControlArm(controlKey: ControlKey, pressed: bool, keypad: bool)
    | EmptyArm    // the empty event; the escape flag is not touched
    | EscapeArm   // the empty event, and the escape flag is set

  /**
   * The effect of an arm on the event and the flag: building a character or control-key event
   * clears the escape flag; only the escape byte sets it.
   */
  function Perform(arm: Arm, doubleCode: bool): (r: Decoded)
    ensures !(r.key.key.Some? && r.key.controlKey.Some?)
    ensures Resolved(r.key) <==> arm.CharArm? || arm.ControlArm?
    ensures Resolved(r.key) ==> !r.doubleCode && r.key.pressed == arm.pressed && r.key.keypad == arm.keypad
    ensures !Resolved(r.key) ==> r.key == EmptyKey && r.doubleCode == (doubleCode || arm.EscapeArm?)
  {
    match arm
    case CharArm(key, pressed, keypad) => Decoded(PS2Key(Some(key), None, pressed, keypad), false)
    case ControlArm(key, pressed, keypad) => Decoded(PS2Key(None, Some(key), pressed, keypad), false)
    case EmptyArm => Decoded(EmptyKey, doubleCode)
    case EscapeArm => Decoded(EmptyKey, true)
  }

  /**
   * The set 1 table: the arm taken for `code` when the escape flag is `doubleCode`. Codes below
   * 0x80 are presses, the same codes with bit 0x80 set are releases. The table's four sections
   * cover disjoint ranges of codes, so each is a match of its own.
   */
  function Set1Arm(doubleCode: bool, code: u8): Arm {
    if code < 0x5B then Presses(doubleCode, code)
    else if code < 0x80 then EscapedPresses(doubleCode, code)
    else if code < 0xDB then Releases(doubleCode, code)
    else if code == EscapePrefix then EscapeArm
    else EscapedReleases(doubleCode, code)
  }

  /** Key presses, codes 0x01 to 0x58. */
  function Presses(doubleCode: bool, code: u8): Arm {
    match code
    case 0x01 => ControlArm(Escape, true, false)
    case 0x02 => CharArm('1', true, false)
    case 0x03 => CharArm('2', true, false)
    case 0x04 => CharArm('3', true, false)
    case 0x05 => CharArm('4', true, false)
    case 0x06 => CharArm('5', true, false)
    case 0x07 => CharArm('6', true, false)
    case 0x08 => CharArm('7', true, false)
    case 0x09 => CharArm('8', true, false)
    case 0x0A => CharArm('9', true, false)
    case 0x0B => CharArm('0', true, false)
    case 0x0C => CharArm('-', true, false)
    case 0x0D => CharArm('=', true, false)
    case 0x0E => ControlArm(Backspace, true, false)
    case 0x0F => ControlArm(Tab, true, false)
    case 0x10 => if doubleCode then ControlArm(MultimediaPrevTrack, true, false) else CharArm('q', true, false)
    case 0x11 => CharArm('w', true, false)
    case 0x12 => CharArm('e', true, false)
    case 0x13 => CharArm('r', true, false)
    case 0x14 => CharArm('t', true, false)
    case 0x15 => CharArm('y', true, false)
    case 0x16 => CharArm('u', true, false)
    case 0x17 => CharArm('i', true, false)
    case 0x18 => CharArm('o', true, false)
    case 0x19 => if doubleCode then ControlArm(MultimediaNextTrack, true, false) else CharArm('p', true, false)
    case 0x1A => CharArm('[', true, false)
    case 0x1B => CharArm(']', true, false)
    case 0x1C => if doubleCode then ControlArm(Enter, true, true) else ControlArm(Enter, true, false)
    case 0x1D => if doubleCode then ControlArm(RightCtrl, true, false) else ControlArm(LeftCtrl, true, false)
    case 0x1E => CharArm('a', true, false)
    case 0x1F => CharArm('s', true, false)
    case 0x20 => if doubleCode then ControlArm(MultimediaMute, true, false) else CharArm('d', true, false)
    case 0x21 => if doubleCode then ControlArm(MultimediaCalculator, true, false) else CharArm('f', true, false)
    case 0x22 => if doubleCode then ControlArm(MultimediaPlay, true, false) else CharArm('g', true, false)
    case 0x23 => CharArm('h', true, false)
    case 0x24 => if doubleCode then ControlArm(MultimediaStop, true, false) else CharArm('j', true, false)
    case 0x25 => CharArm('k', true, false)
    case 0x26 => CharArm('l', true, false)
    case 0x27 => CharArm(';', true, false)
    case 0x28 => CharArm('\'', true, false)
    case 0x29 => CharArm('`', true, false)
    case 0x2A => if doubleCode then ControlArm(PrintScreen, true, false) else ControlArm(LeftShift, true, false)
    case 0x2B => CharArm('\\', true, false)
    case 0x2C => CharArm('z', true, false)
    case 0x2D => CharArm('x', true, false)
    case 0x2E => if doubleCode then ControlArm(MultimediaVolumeDown, true, false) else CharArm('c', true, false)
    case 0x2F => CharArm('v', true, false)
    case 0x30 => if doubleCode then ControlArm(MultimediaVolumeUp, true, false) else CharArm('b', true, false)
    case 0x31 => CharArm('n', true, false)
    case 0x32 => if doubleCode then ControlArm(MultimediaWWWHome, true, false) else CharArm('m', true, false)
    case 0x33 => CharArm(',', true, false)
    case 0x34 => CharArm('.', true, false)
    case 0x35 => if doubleCode then CharArm('/', true, true) else CharArm('/', true, false)
    case 0x36 => ControlArm(RightShift, true, false)
    case 0x37 => CharArm('*', true, true)
    case 0x38 => if doubleCode then ControlArm(RightAlt, true, false) else ControlArm(LeftAlt, true, false)
    case 0x39 => CharArm(' ', true, false)
    case 0x3A => ControlArm(CapsLock, true, false)
    case 0x3B => ControlArm(F1, true, false)
    case 0x3C => ControlArm(F2, true, false)
    case 0x3D => ControlArm(F3, true, false)
    case 0x3E => ControlArm(F4, true, false)
    case 0x3F => ControlArm(F5, true, false)
    case 0x40 => ControlArm(F6, true, false)
    case 0x41 => ControlArm(F7, true, false)
    case 0x42 => ControlArm(F8, true, false)
    case 0x43 => ControlArm(F9, true, false)
    case 0x44 => ControlArm(F10, true, false)
    case 0x45 => ControlArm(NumberLock, true, false)
    case 0x46 => ControlArm(ScrollLock, true, false)
    case 0x47 => if doubleCode then ControlArm(Home, true, false) else CharArm('7', true, true)
    case 0x48 => if doubleCode then ControlArm(CursorUp, true, false) else CharArm('8', true, true)
    case 0x49 => if doubleCode then ControlArm(PageUp, true, false) else CharArm('9', true, true)
    case 0x4A => CharArm('-', true, true)
    case 0x4B => if doubleCode then ControlArm(CursorLeft, true, false) else CharArm('4', true, true)
    case 0x4C => CharArm('5', true, true)
    case 0x4D => if doubleCode then ControlArm(CursorRight, true, false) else CharArm('6', true, true)
    case 0x4E => CharArm('+', true, true)
    case 0x4F => if doubleCode then ControlArm(End, true, false) else CharArm('1', true, true)
    case 0x50 => if doubleCode then ControlArm(CursorDown, true, false) else CharArm('2', true, true)
    case 0x51 => if doubleCode then ControlArm(PageDown, true, false) else CharArm('3', true, true)
    case 0x52 => if doubleCode then ControlArm(Insert, true, false) else CharArm('0', true, true)
    case 0x53 => if doubleCode then ControlArm(Delete, true, false) else CharArm('.', true, true)
    case 0x57 => ControlArm(F11, true, false)
    case 0x58 => ControlArm(F12, true, false)
    case _ => EmptyArm
  }

  /** Presses that exist only after an escape byte, codes 0x5B to 0x6D. */
  function EscapedPresses(doubleCode: bool, code: u8): Arm {
    match code
    case 0x5B => if doubleCode then ControlArm(LeftGUI, true, false) else EmptyArm
    case 0x5C => if doubleCode then ControlArm(RightGUI, true, false) else EmptyArm
    case 0x5D => if doubleCode then ControlArm(Apps, true, false) else EmptyArm
    case 0x5E => if doubleCode then ControlArm(ACPIPower, true, false) else EmptyArm
    case 0x5F => if doubleCode then ControlArm(ACPISleep, true, false) else EmptyArm
    case 0x63 => if doubleCode then ControlArm(ACPIWake, true, false) else EmptyArm
    case 0x65 => if doubleCode then ControlArm(MultimediaWWWSearch, true, false) else EmptyArm
    case 0x66 => if doubleCode then ControlArm(MultimediaWWWFavourites, true, false) else EmptyArm
    case 0x67 => if doubleCode then ControlArm(MultimediaWWWRefresh, true, false) else EmptyArm
    case 0x68 => if doubleCode then ControlArm(MultimediaWWWStop, true, false) else EmptyArm
    case 0x69 => if doubleCode then ControlArm(MultimediaWWWForward, true, false) else EmptyArm
    case 0x6A => if doubleCode then ControlArm(MultimediaWWWBack, true, false) else EmptyArm
    case 0x6B => if doubleCode then ControlArm(MultimediaMyComputer, true, false) else EmptyArm
    case 0x6C => if doubleCode then ControlArm(MultimediaEmail, true, false) else EmptyArm
    case 0x6D => if doubleCode then ControlArm(MultimediaSelect, true, false) else EmptyArm
    case _ => EmptyArm
  }

  /** Key releases, codes 0x81 to 0xD8. */
  function Releases(doubleCode: bool, code: u8): Arm {
    match code
    case 0x81 => ControlArm(Escape, false, false)
    case 0x82 => CharArm('1', false, false)
    case 0x83 => CharArm('2', false, false)
    case 0x84 => CharArm('3', false, false)
    case 0x85 => CharArm('4', false, false)
    case 0x86 => CharArm('5', false, false)
    case 0x87 => CharArm('6', false, false)
    case 0x88 => CharArm('7', false, false)
    case 0x89 => CharArm('8', false, false)
    case 0x8A => CharArm('9', false, false)
    case 0x8B => CharArm('0', false, false)
    case 0x8C => CharArm('-', false, false)
    case 0x8D => CharArm('=', false, false)
    case 0x8E => ControlArm(Backspace, false, false)
    case 0x8F => ControlArm(Tab, false, false)
    case 0x90 => if doubleCode then ControlArm(MultimediaPrevTrack, false, false) else CharArm('q', false, false)
    case 0x91 => CharArm('w', false, false)
    case 0x92 => CharArm('e', false, false)
    case 0x93 => CharArm('r', false, false)
    case 0x94 => CharArm('t', false, false)
    case 0x95 => CharArm('y', false, false)
    case 0x96 => CharArm('u', false, false)
    case 0x97 => CharArm('i', false, false)
    case 0x98 => CharArm('o', false, false)
    case 0x99 => if doubleCode then ControlArm(MultimediaNextTrack, false, false) else CharArm('p', false, false)
    case 0x9A => CharArm('[', false, false)
    case 0x9B => CharArm(']', false, false)
    case 0x9C => if doubleCode then ControlArm(Enter, false, true) else ControlArm(Enter, false, false)
    case 0x9D => if doubleCode then ControlArm(RightCtrl, false, false) else ControlArm(LeftCtrl, false, false)
    case 0x9E => CharArm('a', false, false)
    case 0x9F => CharArm('s', false, false)
    case 0xA0 => if doubleCode then ControlArm(MultimediaMute, false, false) else CharArm('d', false, false)
    case 0xA1 => if doubleCode then ControlArm(MultimediaCalculator, false, false) else CharArm('f', false, false)
    case 0xA2 => if doubleCode then ControlArm(MultimediaPlay, false, false) else CharArm('g', false, false)
    case 0xA3 => CharArm('h', false, false)
    case 0xA4 => if doubleCode then ControlArm(MultimediaStop, false, false) else CharArm('j', false, false)
    case 0xA5 => CharArm('k', false, false)
    case 0xA6 => CharArm('l', false, false)
    case 0xA7 => CharArm(';', false, false)
    case 0xA8 => CharArm('\'', false, false)
    case 0xA9 => CharArm('`', false, false)
    case 0xAA => ControlArm(LeftShift, false, false)
    case 0xAB => CharArm('\\', false, false)
    case 0xAC => CharArm('z', false, false)
    case 0xAD => CharArm('x', false, false)
    case 0xAE => if doubleCode then ControlArm(MultimediaVolumeDown, false, false) else CharArm('c', false, false)
    case 0xAF => CharArm('v', false, false)
    case 0xB0 => if doubleCode then ControlArm(MultimediaVolumeUp, false, false) else CharArm('b', false, false)
    case 0xB1 => CharArm('n', false, false)
    case 0xB2 => if doubleCode then ControlArm(MultimediaWWWHome, false, false) else CharArm('m', false, false)
    case 0xB3 => CharArm(',', false, false)
    case 0xB4 => CharArm('.', false, false)
    case 0xB5 => if doubleCode then CharArm('/', false, true) else CharArm('/', false, false)
    case 0xB6 => ControlArm(RightShift, false, false)
    case 0xB7 => if doubleCode then ControlArm(PrintScreen, false, false) else CharArm('*', false, true)
    case 0xB8 => if doubleCode then ControlArm(RightAlt, false, false) else ControlArm(LeftAlt, false, false)
    case 0xB9 => CharArm(' ', false, false)
    case 0xBA => ControlArm(CapsLock, false, false)
    case 0xBB => ControlArm(F1, false, false)
    case 0xBC => ControlArm(F2, false, false)
    case 0xBD => ControlArm(F3, false, false)
    case 0xBE => ControlArm(F4, false, false)
    case 0xBF => ControlArm(F5, false, false)
    case 0xC0 => ControlArm(F6, false, false)
    case 0xC1 => ControlArm(F7, false, false)
    case 0xC2 => ControlArm(F8, false, false)
    case 0xC3 => ControlArm(F9, false, false)
    case 0xC4 => ControlArm(F10, false, false)
    case 0xC5 => ControlArm(NumberLock, false, false)
    case 0xC6 => ControlArm(ScrollLock, false, false)
    case 0xC7 => if doubleCode then ControlArm(Home, false, false) else CharArm('7', false, true)
    case 0xC8 => if doubleCode then ControlArm(CursorUp, false, false) else CharArm('8', false, true)
    case 0xC9 => if doubleCode then ControlArm(PageUp, false, false) else CharArm('9', false, true)
    case 0xCA => CharArm('-', false, true)
    case 0xCB => if doubleCode then ControlArm(CursorLeft, false, false) else CharArm('4', false, true)
    case 0xCC => CharArm('5', false, true)
    case 0xCD => if doubleCode then ControlArm(CursorRight, false, false) else CharArm('6', false, true)
    case 0xCE => CharArm('+', false, true)
    case 0xCF => if doubleCode then ControlArm(End, false, false) else CharArm('1', false, true)
    case 0xD0 => if doubleCode then ControlArm(CursorDown, false, false) else CharArm('2', false, true)
    case 0xD1 => if doubleCode then ControlArm(PageDown, false, false) else CharArm('3', false, true)
    case 0xD2 => if doubleCode then ControlArm(Insert, false, false) else CharArm('0', false, true)
    case 0xD3 => if doubleCode then ControlArm(Delete, false, false) else CharArm('.', false, true)
    case 0xD7 => ControlArm(F11, false, false)
    case 0xD8 => ControlArm(F12, false, false)
    case _ => EmptyArm
  }

  /** Releases that exist only after an escape byte, codes 0xDB to 0xED. */
  function EscapedReleases(doubleCode: bool, code: u8): Arm {
    match code
    case 0xDB => if doubleCode then ControlArm(LeftGUI, false, false) else EmptyArm
    case 0xDC => if doubleCode then ControlArm(RightGUI, false, false) else EmptyArm
    case 0xDD => if doubleCode then ControlArm(Apps, false, false) else EmptyArm
    case 0xDE => if doubleCode then ControlArm(ACPIPower, false, false) else EmptyArm
    case 0xDF => if doubleCode then ControlArm(ACPISleep, false, false) else EmptyArm
    case 0xE3 => if doubleCode then ControlArm(ACPIWake, false, false) else EmptyArm
    case 0xE5 => if doubleCode then ControlArm(MultimediaWWWSearch, false, false) else EmptyArm
    case 0xE6 => if doubleCode then ControlArm(MultimediaWWWFavourites, false, false) else EmptyArm
    case 0xE7 => if doubleCode then ControlArm(MultimediaWWWRefresh, false, false) else EmptyArm
    case 0xE8 => if doubleCode then ControlArm(MultimediaWWWStop, false, false) else EmptyArm
    case 0xE9 => if doubleCode then ControlArm(MultimediaWWWForward, false, false) else EmptyArm
    case 0xEA => if doubleCode then ControlArm(MultimediaWWWBack, false, false) else EmptyArm
    case 0xEB => if doubleCode then ControlArm(MultimediaMyComputer, false, false) else EmptyArm
    case 0xEC => if doubleCode then ControlArm(MultimediaEmail, false, false) else EmptyArm
    case 0xED => if doubleCode then ControlArm(MultimediaSelect, false, false) else EmptyArm
    case _ => EmptyArm
  }

  /** Decoding of one set 1 byte. */
  function DecodeSet1(doubleCode: bool, code: u8): Decoded {
    Perform(Set1Arm(doubleCode, code), doubleCode)
  }

  /**
   * Decoding of one byte by a reader that is in scan code set `scanCodeSet` and whose escape flag
   * is `doubleCode`: the event and the new value of the flag. Only set 1 is decoded; in the other
   * sets every byte gives the empty event and the flag is kept.
   */
  function Decode(scanCodeSet: ScanCodeSet, doubleCode: bool, code: u8): (r: Decoded)
    ensures scanCodeSet != Set1 ==> r == Decoded(EmptyKey, doubleCode)
    ensures !(r.key.key.Some? && r.key.controlKey.Some?)
    ensures Resolved(r.key) ==> !r.doubleCode
    ensures !Resolved(r.key) ==> r.key == EmptyKey && (doubleCode ==> r.doubleCode)
  {
    if scanCodeSet == Set1 then DecodeSet1(doubleCode, code) else Decoded(EmptyKey, doubleCode)
  }

  /** The keyboard decoder: the selected scan code set and the pending-escape flag. */
  class PS2ScancodeReader {
    var scanCodeSet: ScanCodeSet
    var doubleCode: bool

    /** A reader for `scanCodeSet` with no escape pending. */
    constructor(scanCodeSet: ScanCodeSet)
      ensures this.scanCodeSet == scanCodeSet && !doubleCode
    {
      this.scanCodeSet := scanCodeSet;
      doubleCode := false;
    }

    /** Switches to another scan code set; a pending escape stays pending. */
    method SetScancodeSet(scanCodeSet: ScanCodeSet)
      modifies this
      ensures this.scanCodeSet == scanCodeSet && doubleCode == old(doubleCode)
    {
      this.scanCodeSet := scanCodeSet;
    }

    /** Decodes one byte and updates the escape flag, exactly as `Decode` says. */
    method MatchScancode(code: u8) returns (key: PS2Key)
      modifies this
      ensures Decoded(key, doubleCode) == Decode(old(scanCodeSet), old(doubleCode), code)
      ensures scanCodeSet == old(scanCodeSet)
    {
      if scanCodeSet == Set1 {
        key := MatchSet1Scancode(code);
      } else {
        key := EmptyKey;
      }
    }

    /** Builds a character event and clears the escape flag. */
    method CreateKey(key: char, pressed: bool, keypad: bool) returns (k: PS2Key)
      modifies this
      ensures k == PS2Key(Some(key), None, pressed, keypad) && Resolved(k)
      ensures !doubleCode && scanCodeSet == old(scanCodeSet)
    {
      doubleCode := false;
      k := PS2Key(Some(key), None, pressed, keypad);
    }

    /** Builds a control-key event and clears the escape flag. */
    method CreateControlKey(key: ControlKey, pressed: bool, keypad: bool) returns (k: PS2Key)
      modifies this
      ensures k == PS2Key(None, Some(key), pressed, keypad) && Resolved(k)
      ensures !doubleCode && scanCodeSet == old(scanCodeSet)
    {
      doubleCode := false;
      k := PS2Key(None, Some(key), pressed, keypad);
    }

    /** Decodes one set 1 byte: takes the arm of the table and performs it on the reader. */
    method MatchSet1Scancode(code: u8) returns (key: PS2Key)
      modifies this
      ensures Decoded(key, doubleCode) == DecodeSet1(old(doubleCode), code)
      ensures scanCodeSet == old(scanCodeSet)
    {
      match Set1Arm(doubleCode, code)
      case CharArm(c, pressed, keypad) =>
        key := CreateKey(c, pressed, keypad);
      case ControlArm(k, pressed, keypad) =>
        key := CreateControlKey(k, pressed, keypad);
      case EscapeArm =>
        doubleCode := true;
        key := EmptyKey;
      case EmptyArm =>
        key := EmptyKey;
    }
  }

  // ---------------------------------------------------------------------------------------------
  // Properties of the table over all 256 bytes. The table consists of large matches, so each
  // property is first stated per byte on the arms (`ArmShape`, `ArmSensitivity`, `ArmPaired`) and checked by
  // the verifier's case analysis in blocks of consecutive codes; the `...Everywhere` lemmas join
  // the blocks, and the lemmas after them carry the facts over to what `Decode` returns.

  /** Make codes of keys that have a meaning without an escape byte. */
  predicate PlainMake(c: u8) {
    0x01 <= c <= 0x53 || c == 0x57 || c == 0x58
  }

  /** Make codes of keys that exist only after an escape byte. */
  predicate ExtendedOnlyMake(c: u8) {
    0x5B <= c <= 0x5F || c == 0x63 || 0x65 <= c <= 0x6D
  }

  /** The key number of a code: the code itself for a press, the code without bit 0x80 for a release. */
  function MakeCode(c: u8): u8 {
    if c < 0x80 then c else c - 0x80
  }

  /** Make codes whose press has a different meaning after an escape byte. */
  predicate EscapeSensitiveMake(c: u8) {
    || c == 0x10 || c == 0x19 || c == 0x1C || c == 0x1D || c == 0x20 || c == 0x21 || c == 0x22
    || c == 0x24 || c == 0x2A || c == 0x2E || c == 0x30 || c == 0x32 || c == 0x35 || c == 0x38
    || c == 0x47 || c == 0x48 || c == 0x49 || c == 0x4B || c == 0x4D || 0x4F <= c <= 0x53
  }

  /**
   * The codes that decode differently after an escape byte: the presses above, the escape-only
   * keys, and their releases, except that the release 0xAA ignores the flag while the release
   * 0xB7 (unlike the press 0x37) tests it.
   */
  predicate EscapeSensitive(c: u8) {
    ((EscapeSensitiveMake(MakeCode(c)) || ExtendedOnlyMake(MakeCode(c))) && c != 0xAA) || c == 0xB7
  }

  /** The characters of the number row, for make codes 0x02 to 0x0D. */
  const NumberRowGlyphs := "1234567890-="

  /** The characters of the numeric keypad, for make codes 0x47 to 0x53. */
  const KeypadGlyphs := "789-456+1230."

  /** The keys of the numeric keypad after an escape byte (None: the same character as without). */
  const KeypadNavigation: seq<Option<ControlKey>> :=
    [Some(Home), Some(CursorUp), Some(PageUp), None, Some(CursorLeft), None, Some(CursorRight), None,
     Some(End), Some(CursorDown), Some(PageDown), Some(Insert), Some(Delete)]

  /** The arm for the release of the key that `a` presses. */
  function ReleasedArm(a: Arm): Arm {
    match a
    case CharArm(key, _, keypad) => CharArm(key, false, keypad)
    case ControlArm(key, _, keypad) => ControlArm(key, false, keypad)
    case _ => a
  }

  // ---------------------------------------------------------------------------------------------
  // Per-byte facts about the arms, checked block by block.

  /** Which codes build an event, that presses are the codes below 0x80, and where the escape byte is. */
  predicate ArmShape(doubleCode: bool, c: u8) {
    var a := Set1Arm(doubleCode, c);
    && ((a.CharArm? || a.ControlArm?) <==> PlainMake(MakeCode(c)) || (doubleCode && ExtendedOnlyMake(MakeCode(c))))
    && ((a.CharArm? || a.ControlArm?) ==> a.pressed == (c < 0x80))
    && (a.EscapeArm? <==> c == EscapePrefix)
  }

  /** The arm depends on the escape flag exactly for the escape-sensitive codes. */
  predicate ArmSensitivity(c: u8) {
    (Set1Arm(true, c) != Set1Arm(false, c)) <==> EscapeSensitive(c)
  }

  /** The release code `c + 0x80` takes the release arm of the press code `c`. */
  predicate ArmPaired(doubleCode: bool, c: u8)
    requires c < 0x80
  {
    Set1Arm(doubleCode, c + 0x80) == ReleasedArm(Set1Arm(doubleCode, c))
  }

  lemma PlainShape00(c: u8) requires c < 0x20 ensures ArmShape(false, c) {}
  lemma PlainShape20(c: u8) requires 0x20 <= c < 0x40 ensures ArmShape(false, c) {}
  lemma PlainShape40(c: u8) requires 0x40 <= c < 0x60 ensures ArmShape(false, c) {}
  lemma PlainShape60(c: u8) requires 0x60 <= c < 0x80 ensures ArmShape(false, c) {}
  lemma PlainShape80(c: u8) requires 0x80 <= c < 0xA0 ensures ArmShape(false, c) {}
  lemma PlainShapeA0(c: u8) requires 0xA0 <= c < 0xC0 ensures ArmShape(false, c) {}
  lemma PlainShapeC0(c: u8) requires 0xC0 <= c < 0xE0 ensures ArmShape(false, c) {}
  lemma PlainShapeE0(c: u8) requires 0xE0 <= c ensures ArmShape(false, c) {}

  lemma EscapedShape00(c: u8) requires c < 0x20 ensures ArmShape(true, c) {}
  lemma EscapedShape20(c: u8) requires 0x20 <= c < 0x40 ensures ArmShape(true, c) {}
  lemma EscapedShape40(c: u8) requires 0x40 <= c < 0x60 ensures ArmShape(true, c) {}
  lemma EscapedShape60(c: u8) requires 0x60 <= c < 0x80 ensures ArmShape(true, c) {}
  lemma EscapedShape80(c: u8) requires 0x80 <= c < 0xA0 ensures ArmShape(true, c) {}
  lemma EscapedShapeA0(c: u8) requires 0xA0 <= c < 0xC0 ensures ArmShape(true, c) {}
  lemma EscapedShapeC0(c: u8) requires 0xC0 <= c < 0xE0 ensures ArmShape(true, c) {}
  lemma EscapedShapeE0(c: u8) requires 0xE0 <= c ensures ArmShape(true, c) {}

  lemma Sensitivity00(c: u8) requires c < 0x20 ensures ArmSensitivity(c) {}
  lemma Sensitivity20(c: u8) requires 0x20 <= c < 0x40 ensures ArmSensitivity(c) {}
  lemma Sensitivity40(c: u8) requires 0x40 <= c < 0x50 ensures ArmSensitivity(c) {}
  lemma Sensitivity50(c: u8) requires 0x50 <= c < 0x60 ensures ArmSensitivity(c) {}
  lemma Sensitivity60(c: u8) requires 0x60 <= c < 0x80 ensures ArmSensitivity(c) {}
  lemma Sensitivity80(c: u8) requires 0x80 <= c < 0xA0 ensures ArmSensitivity(c) {}
  lemma SensitivityA0(c: u8) requires 0xA0 <= c < 0xC0 ensures ArmSensitivity(c) {}
  lemma SensitivityC0(c: u8) requires 0xC0 <= c < 0xC8 ensures ArmSensitivity(c) {}
  lemma SensitivityC8(c: u8) requires 0xC8 <= c < 0xD0 ensures ArmSensitivity(c) {}
  lemma SensitivityD0(c: u8) requires 0xD0 <= c < 0xE0 ensures ArmSensitivity(c) {}
  lemma SensitivityE0(c: u8) requires 0xE0 <= c ensures ArmSensitivity(c) {}

  lemma PlainPairs00(c: u8) requires c < 0x10 ensures ArmPaired(false, c) {}
  lemma PlainPairs10(c: u8) requires 0x10 <= c < 0x20 ensures ArmPaired(false, c) {}
  lemma PlainPairs20(c: u8) requires 0x20 <= c < 0x30 ensures ArmPaired(false, c) {}
  lemma PlainPairs30(c: u8) requires 0x30 <= c < 0x38 ensures ArmPaired(false, c) {}
  lemma PlainPairs38(c: u8) requires 0x38 <= c < 0x40 ensures ArmPaired(false, c) {}
  lemma PlainPairs40(c: u8) requires 0x40 <= c < 0x44 ensures ArmPaired(false, c) {}
  lemma PlainPairs44(c: u8) requires 0x44 <= c < 0x48 ensures ArmPaired(false, c) {}
  lemma PlainPairs48(c: u8) requires 0x48 <= c < 0x4C ensures ArmPaired(false, c) {}
  lemma PlainPairs4C(c: u8) requires 0x4C <= c < 0x50 ensures ArmPaired(false, c) {}
  lemma PlainPairs50(c: u8) requires 0x50 <= c < 0x60 ensures ArmPaired(false, c) {}
  lemma PlainPairs60(c: u8) requires 0x60 <= c < 0x80 && c != 0x60 ensures ArmPaired(false, c) {}

  lemma EscapedPairs00(c: u8) requires c < 0x20 ensures ArmPaired(true, c) {}
  lemma EscapedPairs20(c: u8) requires 0x20 <= c < 0x40 && c != 0x2A && c != 0x37 ensures ArmPaired(true, c) {}
  lemma EscapedPairs40(c: u8) requires 0x40 <= c < 0x48 ensures ArmPaired(true, c) {}
  lemma EscapedPairs48(c: u8) requires 0x48 <= c < 0x50 ensures ArmPaired(true, c) {}
  lemma EscapedPairs50(c: u8) requires 0x50 <= c < 0x58 ensures ArmPaired(true, c) {}
  lemma EscapedPairs58(c: u8) requires 0x58 <= c < 0x60 ensures ArmPaired(true, c) {}
  lemma EscapedPairs60(c: u8) requires 0x60 <= c < 0x80 && c != 0x60 ensures ArmPaired(true, c) {}

  lemma PlainShapeEverywhere(c: u8)
    ensures ArmShape(false, c)
  {
    if c < 0x20 {
      PlainShape00(c);
    } else if c < 0x40 {
      PlainShape20(c);
    } else if c < 0x60 {
      PlainShape40(c);
    } else if c < 0x80 {
      PlainShape60(c);
    } else if c < 0xA0 {
      PlainShape80(c);
    } else if c < 0xC0 {
      PlainShapeA0(c);
    } else if c < 0xE0 {
      PlainShapeC0(c);
    } else {
      PlainShapeE0(c);
    }
  }

  lemma EscapedShapeEverywhere(c: u8)
    ensures ArmShape(true, c)
  {
    if c < 0x20 {
      EscapedShape00(c);
    } else if c < 0x40 {
      EscapedShape20(c);
    } else if c < 0x60 {
      EscapedShape40(c);
    } else if c < 0x80 {
      EscapedShape60(c);
    } else if c < 0xA0 {
      EscapedShape80(c);
    } else if c < 0xC0 {
      EscapedShapeA0(c);
    } else if c < 0xE0 {
      EscapedShapeC0(c);
    } else {
      EscapedShapeE0(c);
    }
  }

  lemma ShapeEverywhere(doubleCode: bool, c: u8)
    ensures ArmShape(doubleCode, c)
  {
    if doubleCode {
      EscapedShapeEverywhere(c);
    } else {
      PlainShapeEverywhere(c);
    }
  }

  lemma SensitivityEverywhere(c: u8)
    ensures ArmSensitivity(c)
  {
    if c < 0x20 {
      Sensitivity00(c);
    } else if c < 0x40 {
      Sensitivity20(c);
    } else if c < 0x50 {
      Sensitivity40(c);
    } else if c < 0x60 {
      Sensitivity50(c);
    } else if c < 0x80 {
      Sensitivity60(c);
    } else if c < 0xA0 {
      Sensitivity80(c);
    } else if c < 0xC0 {
      SensitivityA0(c);
    } else if c < 0xC8 {
      SensitivityC0(c);
    } else if c < 0xD0 {
      SensitivityC8(c);
    } else if c < 0xE0 {
      SensitivityD0(c);
    } else {
      SensitivityE0(c);
    }
  }

  lemma PlainPairsEverywhere(c: u8)
    requires c < 0x80 && c != 0x60
    ensures ArmPaired(false, c)
  {
    if c < 0x10 {
      PlainPairs00(c);
    } else if c < 0x20 {
      PlainPairs10(c);
    } else if c < 0x30 {
      PlainPairs20(c);
    } else if c < 0x38 {
      PlainPairs30(c);
    } else if c < 0x40 {
      PlainPairs38(c);
    } else if c < 0x44 {
      PlainPairs40(c);
    } else if c < 0x48 {
      PlainPairs44(c);
    } else if c < 0x4C {
      PlainPairs48(c);
    } else if c < 0x50 {
      PlainPairs4C(c);
    } else if c < 0x60 {
      PlainPairs50(c);
    } else {
      PlainPairs60(c);
    }
  }

  lemma EscapedPairsEverywhere(c: u8)
    requires c < 0x80 && c != 0x60 && c != 0x2A && c != 0x37
    ensures ArmPaired(true, c)
  {
    if c < 0x20 {
      EscapedPairs00(c);
    } else if c < 0x40 {
      EscapedPairs20(c);
    } else if c < 0x48 {
      EscapedPairs40(c);
    } else if c < 0x50 {
      EscapedPairs48(c);
    } else if c < 0x58 {
      EscapedPairs50(c);
    } else if c < 0x60 {
      EscapedPairs58(c);
    } else {
      EscapedPairs60(c);
    }
  }

  /** The event an arm builds does not depend on the flag, and the release arm builds the release event. */
  lemma ReleasedArmKey(a: Arm, d: bool, e: bool)
    ensures Perform(ReleasedArm(a), d).key == Released(Perform(a, e).key)
  {
  }

  /** Two arms that are both, or both not, the escape byte build the same event only if they are equal. */
  lemma ArmKeyInjective(a: Arm, b: Arm, d: bool, e: bool)
    requires a.EscapeArm? <==> b.EscapeArm?
    ensures Perform(a, d).key == Perform(b, e).key <==> a == b
  {
  }

  // ---------------------------------------------------------------------------------------------
  // The decoder's behaviour on every byte.

  /**
   * Every byte in set 1: an event names a key exactly for the plain make and break codes and,
   * after an escape byte, the escape-only ones; presses are the codes below 0x80; anything else is
   * the empty event; the new escape flag is set exactly when no key was named and either an escape
   * was already pending or the byte is the escape byte 0xE0.
   */
  lemma Set1Classification(doubleCode: bool, c: u8)
    ensures var r := Decode(Set1, doubleCode, c);
      && (Resolved(r.key) <==> PlainMake(MakeCode(c)) || (doubleCode && ExtendedOnlyMake(MakeCode(c))))
      && (Resolved(r.key) ==> r.key.pressed == (c < 0x80))
      && (!Resolved(r.key) ==> r.key == EmptyKey)
      && r.doubleCode == (!Resolved(r.key) && (doubleCode || c == EscapePrefix))
  {
    ShapeEverywhere(doubleCode, c);
  }

  /** The escape byte gives the empty event and leaves an escape pending, whatever the flag was. */
  lemma EscapeByteSetsFlag(doubleCode: bool)
    ensures Decode(Set1, doubleCode, EscapePrefix) == Decoded(EmptyKey, true)
  {
    Set1Classification(doubleCode, EscapePrefix);
  }

  /**
   * A byte with no arm of its own, or an escape-only key without an escape, gives the empty event
   * and leaves the flag as it was; in particular a pending escape survives an unknown byte.
   */
  lemma UnknownByteKeepsFlag(doubleCode: bool, c: u8)
    requires c != EscapePrefix && !PlainMake(MakeCode(c))
    requires !doubleCode || !ExtendedOnlyMake(MakeCode(c))
    ensures Decode(Set1, doubleCode, c) == Decoded(EmptyKey, doubleCode)
  {
    Set1Classification(doubleCode, c);
  }

  /**
   * With no escape pending, the release code `c + 0x80` reports the key of the press code `c` with
   * `pressed` false, and it names a key exactly when `c` is a plain make code.
   */
  lemma PlainPressReleasePairing(c: u8)
    requires c < 0x80
    ensures Decode(Set1, false, c + 0x80).key == Released(Decode(Set1, false, c).key)
    ensures Resolved(Decode(Set1, false, c).key) <==> PlainMake(c)
  {
    Set1Classification(false, c);
    if c == 0x60 {
      Set1Classification(false, c + 0x80);
    } else {
      PlainPairsEverywhere(c);
      ReleasedArmKey(Set1Arm(false, c), false, false);
    }
  }

  /**
   * After an escape byte the pairing holds as well, except for 0x2A and 0x37 (see
   * `EscapedShiftAsymmetry` and `EscapedStarAsymmetry`).
   */
  lemma EscapedPressReleasePairing(c: u8)
    requires c < 0x80 && c != 0x2A && c != 0x37
    ensures Decode(Set1, true, c + 0x80).key == Released(Decode(Set1, true, c).key)
  {
    if c == 0x60 {
      Set1Classification(true, c);
      Set1Classification(true, c + 0x80);
    } else {
      EscapedPairsEverywhere(c);
      ReleasedArmKey(Set1Arm(true, c), true, true);
    }
  }

  /** The event of a byte depends on a pending escape exactly for the escape-sensitive codes. */
  lemma EscapeSensitivity(c: u8)
    ensures Decode(Set1, true, c).key != Decode(Set1, false, c).key <==> EscapeSensitive(c)
  {
    SensitivityEverywhere(c);
    ShapeEverywhere(false, c);
    ShapeEverywhere(true, c);
    ArmKeyInjective(Set1Arm(true, c), Set1Arm(false, c), true, false);
  }

  /**
   * The number row: make codes 0x02 to 0x0D are the characters '1' to '9', '0', '-' and '=', not on
   * the keypad, with or without an escape pending.
   */
  lemma NumberRow(doubleCode: bool, c: u8)
    requires 0x02 <= c <= 0x0D
    ensures Decode(Set1, doubleCode, c) == Decoded(PS2Key(Some(NumberRowGlyphs[c - 0x02]), None, true, false), false)
  {
  }

  /** A keypad code without an escape: the keypad character. */
  predicate KeypadCharacterAt(c: u8)
    requires 0x47 <= c <= 0x53
  {
    Decode(Set1, false, c).key == PS2Key(Some(KeypadGlyphs[c - 0x47]), None, true, true)
  }

  /**
   * A keypad code after an escape: the navigation key (not flagged as keypad), or for '-', '5' and
   * '+' the same character as without the escape.
   */
  predicate KeypadNavigationAt(c: u8)
    requires 0x47 <= c <= 0x53
  {
    Decode(Set1, true, c).key ==
      if KeypadNavigation[c - 0x47].Some? then PS2Key(None, KeypadNavigation[c - 0x47], true, false)
      else PS2Key(Some(KeypadGlyphs[c - 0x47]), None, true, true)
  }

  lemma KeypadCharacters47(c: u8) requires 0x47 <= c <= 0x4C ensures KeypadCharacterAt(c) {}
  lemma KeypadCharacters4D(c: u8) requires 0x4D <= c <= 0x53 ensures KeypadCharacterAt(c) {}
  lemma KeypadNavigation47(c: u8) requires 0x47 <= c <= 0x4C ensures KeypadNavigationAt(c) {}
  lemma KeypadNavigation4D(c: u8) requires 0x4D <= c <= 0x53 ensures KeypadNavigationAt(c) {}

  /** The numeric keypad block 0x47 to 0x53, with and without an escape pending. */
  lemma KeypadBlock(c: u8)
    requires 0x47 <= c <= 0x53
    ensures KeypadCharacterAt(c) && KeypadNavigationAt(c)
  {
    if c <= 0x4C {
      KeypadCharacters47(c);
      KeypadNavigation47(c);
    } else {
      KeypadCharacters4D(c);
      KeypadNavigation4D(c);
    }
  }

  /** Enter after an escape is the keypad Enter. */
  lemma EscapedEnter()
    ensures Decode(Set1, false, 0x1C).key == PS2Key(None, Some(Enter), true, false)
    ensures Decode(Set1, true, 0x1C).key == PS2Key(None, Some(Enter), true, true)
  {
  }

  /** Ctrl after an escape is the right Ctrl. */
  lemma EscapedCtrl()
    ensures Decode(Set1, false, 0x1D).key == PS2Key(None, Some(LeftCtrl), true, false)
    ensures Decode(Set1, true, 0x1D).key == PS2Key(None, Some(RightCtrl), true, false)
  {
  }

  /** Alt after an escape is the right Alt. */
  lemma EscapedAlt()
    ensures Decode(Set1, false, 0x38).key == PS2Key(None, Some(LeftAlt), true, false)
    ensures Decode(Set1, true, 0x38).key == PS2Key(None, Some(RightAlt), true, false)
  {
  }

  /**
   * One place where the escaped table is not symmetric: after an escape 0x2A is Print Screen, but
   * its release 0xAA is still Left Shift.
   */
  lemma EscapedShiftAsymmetry()
    ensures Decode(Set1, true, 0x2A).key == PS2Key(None, Some(PrintScreen), true, false)
    ensures Decode(Set1, true, 0xAA).key == PS2Key(None, Some(LeftShift), false, false)
  {
  }

  /**
   * The other place: 0x37 is '*' whether or not an escape is pending, but after an escape its
   * release 0xB7 is Print Screen.
   */
  lemma EscapedStarAsymmetry()
    ensures Decode(Set1, true, 0x37).key == PS2Key(Some('*'), None, true, true)
    ensures Decode(Set1, true, 0xB7).key == PS2Key(None, Some(PrintScreen), false, false)
  {
  }

  /**
   * An escape byte followed by a byte without an arm stays pending: the sequence E0 54 1D reports
   * the right Ctrl key.
   */
  lemma StaleEscape()
    ensures var r1 := Decode(Set1, false, EscapePrefix);
      var r2 := Decode(Set1, r1.doubleCode, 0x54);
      var r3 := Decode(Set1, r2.doubleCode, 0x1D);
      r2 == Decoded(EmptyKey, true) && r3 == Decoded(PS2Key(None, Some(RightCtrl), true, false), false)
  {
    EscapeByteSetsFlag(false);
    UnknownByteKeepsFlag(true, 0x54);
  }
}
