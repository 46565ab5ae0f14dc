/** The Windows virtual-key table: virtual-key code to the symbolic name put
    in the "key" field of a captured key record. The constants are the
    `VK_*` values of the Win32 API. */
module WinKeyCodes {
  import opened Text

  predicate IsDigitOrLetterCode(vkCode: int)
  {
    0x30 <= vkCode <= 0x39 || 0x41 <= vkCode <= 0x5A
  }

  /** Codes the switch names explicitly. */
  predicate IsSpecialCode(vkCode: int)
  {
    vkCode in {0x08, 0x09, 0x0D, 0x10, 0x11, 0x12, 0x1B, 0x20, 0x25, 0x26, 0x27, 0x28, 0xA0, 0xA1, 0xA2, 0xA3, 0xA4, 0xA5, 0xBA, 0xBB, 0xBC, 0xBD, 0xBE, 0xBF, 0xC0, 0xDB, 0xDC, 0xDD, 0xDE}
  }

  predicate IsNamedCode(vkCode: int)
  {
    IsDigitOrLetterCode(vkCode) || IsSpecialCode(vkCode)
  }

  /** The generic, left and right codes of Shift (`VK_SHIFT`, `VK_LSHIFT`,
      `VK_RSHIFT`), Ctrl (`VK_CONTROL`, ...) and Alt (`VK_MENU`, ...) are
      reported under one name each; this maps each code to the generic one. */
  function ModifierFamily(vkCode: int): int
  {
    if vkCode in {0xA0, 0xA1} then 0x10
    else if vkCode in {0xA2, 0xA3} then 0x11
    else if vkCode in {0xA4, 0xA5} then 0x12
    else vkCode
  }

  /** Whether a name begins like the fallback "VK(<code>)". */
  predicate IsFallbackName(name: string)
  {
    |name| >= 3 && name[0] == 'V' && name[1] == 'K' && name[2] == '('
  }

  function VKCodeToString(vkCode: int): (name: string)
    ensures 1 <= |name|
    ensures IsDigitOrLetterCode(vkCode) ==> name == [vkCode as char]
    ensures ModifierFamily(vkCode) == 0x10 ==> name == "SHIFT"
    ensures ModifierFamily(vkCode) == 0x11 ==> name == "CTRL"
    ensures ModifierFamily(vkCode) == 0x12 ==> name == "ALT"
    ensures IsNamedCode(vkCode) <==> !IsFallbackName(name)
    ensures !IsNamedCode(vkCode) ==> name == "VK(" + IntToDecimal(vkCode) + ")"
  {
    if 0x30 <= vkCode <= 0x39 then [vkCode as char]
    else if 0x41 <= vkCode <= 0x5A then [vkCode as char]
    else
      match vkCode
      case 0x20 => "SPACE"
      case 0x0D => "ENTER"
      case 0x08 => "BACKSPACE"
      case 0x09 => "TAB"
      case 0x10 | 0xA0 | 0xA1 => "SHIFT"
      case 0x11 | 0xA2 | 0xA3 => "CTRL"
      case 0x12 | 0xA4 | 0xA5 => "ALT"
      case 0x1B => "ESC"
      case 0x25 => "LEFT_ARROW"
      case 0x26 => "UP_ARROW"
      case 0x27 => "RIGHT_ARROW"
      case 0x28 => "DOWN_ARROW"
      case 0xBA => ";:"
      case 0xBB => "+="
      case 0xBC => ",<"
      case 0xBD => "-_"
      case 0xBE => ".>"
      case 0xBF => "/?"
      case 0xC0 => "`~"
      case 0xDB => "[{"
      case 0xDC => "\\|"
      case 0xDD => "]}"
      case 0xDE => "'\""
      case _ => "VK(" + IntToDecimal(vkCode) + ")"
  }

  /** Length, first and last character of a name packed into one number;
      on the named codes this determines the code up to its modifier family. */
  function Fingerprint(name: string): int
    requires 1 <= |name|
  {
    |name| * 0x100_0000 + name[0] as int * 0x1000 + name[|name| - 1] as int
  }

  /** Inverse of `Fingerprint` on the names of the named codes, giving the
      generic code of a modifier family. */
  function NamedCodeOfFingerprint(fingerprint: int): int
  {
    if 0x100_0000 <= fingerprint < 0x200_0000 && fingerprint % 0x1000 == fingerprint / 0x1000 % 0x1000 then
      fingerprint % 0x1000
    else
      match fingerprint
    case 84226117 => 0x20
    case 84168786 => 0x0D
    case 151265349 => 0x08
    case 50675778 => 0x09
    case 84226132 => 0x10
    case 67383372 => 0x11
    case 50597972 => 0x12
    case 50614339 => 0x1B
    case 168083543 => 0x25
    case 134565975 => 0x26
    case 184885335 => 0x27
    case 168050775 => 0x28
    case 33796154 => 0xBA
    case 33730621 => 0xBB
    case 33734716 => 0xBC
    case 33738847 => 0xBD
    case 33742910 => 0xBE
    case 33747007 => 0xBF
    case 33947774 => 0xC0
    case 33927291 => 0xDB
    case 33931388 => 0xDC
    case 33935485 => 0xDD
    case 33714210 => 0xDE
      case _ => -1
  }

  lemma DigitOrLetterFingerprint(vkCode: int)
    requires IsDigitOrLetterCode(vkCode)
    ensures NamedCodeOfFingerprint(Fingerprint(VKCodeToString(vkCode))) == vkCode
  {
  }

  lemma SpecialFingerprintLow(vkCode: int)
    requires vkCode in {0x08, 0x09, 0x0D, 0x10, 0x11, 0x12, 0x1B, 0x20, 0x25, 0x26, 0x27, 0x28}
    ensures NamedCodeOfFingerprint(Fingerprint(VKCodeToString(vkCode))) == vkCode
  {
  }

  lemma SpecialFingerprintHigh(vkCode: int)
    requires vkCode in {0xA0, 0xA1, 0xA2, 0xA3, 0xA4, 0xA5, 0xBA, 0xBB, 0xBC, 0xBD, 0xBE, 0xBF, 0xC0, 0xDB, 0xDC, 0xDD, 0xDE}
    ensures NamedCodeOfFingerprint(Fingerprint(VKCodeToString(vkCode))) == ModifierFamily(vkCode)
  {
  }

  lemma NamedCodeFingerprint(vkCode: int)
    requires IsNamedCode(vkCode)
    ensures NamedCodeOfFingerprint(Fingerprint(VKCodeToString(vkCode))) == ModifierFamily(vkCode)
  {
    if IsDigitOrLetterCode(vkCode) {
      DigitOrLetterFingerprint(vkCode);
    } else if vkCode < 0xA0 {
      SpecialFingerprintLow(vkCode);
    } else {
      SpecialFingerprintHigh(vkCode);
    }
  }

  /** Two codes get the same name exactly when they are the same key up to
      the left/right distinction of Shift, Ctrl and Alt. */
  lemma {:induction false} SameNameIffSameFamily(a: int, b: int)
    ensures VKCodeToString(a) == VKCodeToString(b) <==> ModifierFamily(a) == ModifierFamily(b)
  {
    if VKCodeToString(a) == VKCodeToString(b) {
      if IsNamedCode(a) && IsNamedCode(b) {
        NamedCodeFingerprint(a);
        NamedCodeFingerprint(b);
      } else if !IsNamedCode(a) && !IsNamedCode(b) {
        WrappedDecimalInjective("VK(", a, b);
      }
    }
  }
}
