/** Windows scan-code translation (winopengl/src/native/windows/keycodes.rs) and the key
    type it produces (winopengl/src/event.rs). */
module Keycodes {

  datatype KeyCode = P | Escape | Right | Left | Down | Up | Unknown

  /** The six scan codes the game reacts to. */
  const SCAN_P: nat := 0x019
  const SCAN_ESCAPE: nat := 0x001
  const SCAN_DOWN: nat := 0x150
  const SCAN_LEFT: nat := 0x14B
  const SCAN_RIGHT: nat := 0x14D
  const SCAN_UP: nat := 0x148

  predicate IsRecognised(code: int) {
    code == SCAN_P || code == SCAN_ESCAPE || code == SCAN_DOWN
    || code == SCAN_LEFT || code == SCAN_RIGHT || code == SCAN_UP
  }

  /** Total over every `u32`: the six known codes map to their key, everything else to `Unknown`. */
  function TranslateKeycode(code: int): (k: KeyCode)
    ensures k == Unknown <==> !IsRecognised(code)
  {
    match code
    case 0x019 => P
    case 0x001 => Escape
    case 0x150 => Down
    case 0x14B => Left
    case 0x14D => Right
    case 0x148 => Up
    case _ => Unknown
  }

  /** The scan code a known key comes from: the inverse of the translation. */
  function ScanCode(k: KeyCode): nat
    requires k != Unknown
  {
    match k
    case P => SCAN_P
    case Escape => SCAN_ESCAPE
    case Down => SCAN_DOWN
    case Left => SCAN_LEFT
    case Right => SCAN_RIGHT
    case Up => SCAN_UP
  }

  /** Round trip both ways: every known key is produced by exactly one scan code, and that
      code fits the nine bits the window procedure keeps (`& 0x1FF`). */
  lemma TranslateInvertsScanCode(k: KeyCode, code: int)
    requires k != Unknown
    ensures TranslateKeycode(ScanCode(k)) == k
    ensures ScanCode(k) <= 0x1FF
    ensures TranslateKeycode(code) == k ==> code == ScanCode(k)
  {
  }

  /** Distinct recognised codes give distinct keys. */
  lemma RecognisedCodesAreDistinctKeys(c1: int, c2: int)
    requires IsRecognised(c1) && IsRecognised(c2) && c1 != c2
    ensures TranslateKeycode(c1) != TranslateKeycode(c2)
  {
  }
}
