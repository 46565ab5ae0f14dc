/** The macOS key-code table: virtual key code (`CGKeyCode`) to the symbolic
    name put in the "key" field of a captured key record. */
module MacKeyCodes {
  import opened Text
  import opened Values

  /** The codes the table names. Code 10 (the section-sign key of ISO
      keyboards) and code 52 (numpad Enter) are commented out of the table, so
      they get the fallback name like any other unknown code. */
  predicate IsNamedKeyCode(keyCode: int)
  {
    || (0 <= keyCode <= 62 && keyCode != 10 && keyCode != 52)
    || keyCode in {96, 97, 98, 99, 100, 101, 103, 109, 111, 118, 120, 122, 123, 124, 125, 126}
  }

  /** Whether a name begins like the fallback "VK(<code>)". */
  predicate IsFallbackName(name: string)
  {
    |name| >= 3 && name[0] == 'V' && name[1] == 'K' && name[2] == '('
  }

  /** The table itself: the names the switch lists, by code. */
  function TableName(keyCode: int): (name: Option<string>)
    ensures name.Some? <==> IsNamedKeyCode(keyCode)
  {
    match keyCode
    case 0 => Some("A")
    case 1 => Some("S")
    case 2 => Some("D")
    case 3 => Some("F")
    case 4 => Some("H")
    case 5 => Some("G")
    case 6 => Some("Z")
    case 7 => Some("X")
    case 8 => Some("C")
    case 9 => Some("V")
    case 11 => Some("B")
    case 12 => Some("Q")
    case 13 => Some("W")
    case 14 => Some("E")
    case 15 => Some("R")
    case 16 => Some("Y")
    case 17 => Some("T")
    case 18 => Some("1")
    case 19 => Some("2")
    case 20 => Some("3")
    case 21 => Some("4")
    case 22 => Some("6")
    case 23 => Some("5")
    case 24 => Some("=")
    case 25 => Some("9")
    case 26 => Some("7")
    case 27 => Some("-")
    case 28 => Some("8")
    case 29 => Some("0")
    case 30 => Some("]")
    case 31 => Some("O")
    case 32 => Some("U")
    case 33 => Some("[")
    case 34 => Some("I")
    case 35 => Some("P")
    case 36 => Some("RETURN")
    case 37 => Some("L")
    case 38 => Some("J")
    case 39 => Some("'")
    case 40 => Some("K")
    case 41 => Some(";")
    case 42 => Some("\\")
    case 43 => Some(",")
    case 44 => Some("/")
    case 45 => Some("N")
    case 46 => Some("M")
    case 47 => Some(".")
    case 48 => Some("TAB")
    case 49 => Some("SPACE")
    case 50 => Some("`")
    case 51 => Some("DELETE")
    case 53 => Some("ESCAPE")
    case 54 => Some("RCOMMAND")
    case 55 => Some("LCOMMAND")
    case 56 => Some("LSHIFT")
    case 57 => Some("CAPSLOCK")
    case 58 => Some("LOPTION")
    case 59 => Some("LCONTROL")
    case 60 => Some("RSHIFT")
    case 61 => Some("ROPTION")
    case 62 => Some("RCONTROL")
    case 122 => Some("F1")
    case 120 => Some("F2")
    case 99 => Some("F3")
    case 118 => Some("F4")
    case 96 => Some("F5")
    case 97 => Some("F6")
    case 98 => Some("F7")
    case 100 => Some("F8")
    case 101 => Some("F9")
    case 109 => Some("F10")
    case 103 => Some("F11")
    case 111 => Some("F12")
    case 123 => Some("LEFT_ARROW")
    case 124 => Some("RIGHT_ARROW")
    case 125 => Some("DOWN_ARROW")
    case 126 => Some("UP_ARROW")
    case _ => None
  }

  /** Total: every code has a name; a code outside the table gets a fallback
      name that embeds the code in decimal. */
  function KeyStringFromKeyCode(keyCode: UInt16): (name: string)
    ensures IsNamedKeyCode(keyCode) ==> name == TableName(keyCode).value
    ensures !IsNamedKeyCode(keyCode) ==> name == "VK(" + IntToDecimal(keyCode) + ")"
  {
    match TableName(keyCode)
    case Some(tableName) => tableName
    case None => "VK(" + IntToDecimal(keyCode) + ")"
  }

  /** Length, first and last character of a name packed into one number;
      on the named entries this is enough to tell them apart. */
  function Fingerprint(name: string): int
    requires 1 <= |name|
  {
    |name| * 0x100_0000 + name[0] as int * 0x1000 + name[|name| - 1] as int
  }

  /** Inverse of `Fingerprint` on the named entries, searched by range. */
  function NamedKeyCodeOfFingerprint(fingerprint: int): int
  {
    if fingerprint <= 16990260 then FingerprintRange0(fingerprint)
    else if fingerprint <= 17051715 then FingerprintRange1(fingerprint)
    else if fingerprint <= 17092685 then FingerprintRange2(fingerprint)
    else if fingerprint <= 17133655 then FingerprintRange3(fingerprint)
    else if fingerprint <= 33841203 then FingerprintRange4(fingerprint)
    else if fingerprint <= 50675778 then FingerprintRange5(fingerprint)
    else if fingerprint <= 134529092 then FingerprintRange6(fingerprint)
    else FingerprintRange7(fingerprint)
  }

  function FingerprintRange0(fingerprint: int): int
  {
    match fingerprint
    case 16936999 => 39
    case 16957484 => 43
    case 16961581 => 27
    case 16965678 => 47
    case 16969775 => 44
    case 16973872 => 29
    case 16977969 => 18
    case 16982066 => 19
    case 16986163 => 20
    case 16990260 => 21
    case _ => -1
  }

  function FingerprintRange1(fingerprint: int): int
  {
    match fingerprint
    case 16994357 => 23
    case 16998454 => 22
    case 17002551 => 26
    case 17006648 => 28
    case 17010745 => 25
    case 17018939 => 41
    case 17027133 => 24
    case 17043521 => 0
    case 17047618 => 11
    case 17051715 => 8
    case _ => -1
  }

  function FingerprintRange2(fingerprint: int): int
  {
    match fingerprint
    case 17055812 => 2
    case 17059909 => 14
    case 17064006 => 3
    case 17068103 => 5
    case 17072200 => 4
    case 17076297 => 34
    case 17080394 => 38
    case 17084491 => 40
    case 17088588 => 37
    case 17092685 => 46
    case _ => -1
  }

  function FingerprintRange3(fingerprint: int): int
  {
    match fingerprint
    case 17096782 => 45
    case 17100879 => 31
    case 17104976 => 35
    case 17109073 => 12
    case 17113170 => 15
    case 17117267 => 1
    case 17121364 => 17
    case 17125461 => 32
    case 17129558 => 9
    case 17133655 => 13
    case _ => -1
  }

  function FingerprintRange4(fingerprint: int): int
  {
    match fingerprint
    case 17137752 => 7
    case 17141849 => 16
    case 17145946 => 6
    case 17150043 => 33
    case 17154140 => 42
    case 17158237 => 30
    case 17170528 => 50
    case 33841201 => 122
    case 33841202 => 120
    case 33841203 => 99
    case _ => -1
  }

  function FingerprintRange5(fingerprint: int): int
  {
    match fingerprint
    case 33841204 => 118
    case 33841205 => 96
    case 33841206 => 97
    case 33841207 => 98
    case 33841208 => 100
    case 33841209 => 101
    case 50618416 => 109
    case 50618417 => 103
    case 50618418 => 111
    case 50675778 => 48
    case _ => -1
  }

  function FingerprintRange6(fingerprint: int): int
  {
    match fingerprint
    case 84226117 => 49
    case 100941893 => 51
    case 100945989 => 53
    case 100974676 => 56
    case 100999246 => 36
    case 100999252 => 60
    case 117751886 => 58
    case 117776462 => 61
    case 134492235 => 57
    case 134529092 => 55
    case _ => -1
  }

  function FingerprintRange7(fingerprint: int): int
  {
    match fingerprint
    case 134529100 => 59
    case 134553668 => 54
    case 134553676 => 62
    case 134565975 => 126
    case 168050775 => 125
    case 168083543 => 123
    case 184885335 => 124
    case _ => -1
  }

  lemma NamedKeyFingerprintPart0(keyCode: UInt16)
    requires keyCode in {0, 1, 2, 3}
    ensures IsNamedKeyCode(keyCode) && 1 <= |TableName(keyCode).value|
    ensures !IsFallbackName(TableName(keyCode).value)
    ensures NamedKeyCodeOfFingerprint(Fingerprint(TableName(keyCode).value)) == keyCode
  {
  }

  lemma NamedKeyFingerprintPart1(keyCode: UInt16)
    requires keyCode in {4, 5, 6, 7}
    ensures IsNamedKeyCode(keyCode) && 1 <= |TableName(keyCode).value|
    ensures !IsFallbackName(TableName(keyCode).value)
    ensures NamedKeyCodeOfFingerprint(Fingerprint(TableName(keyCode).value)) == keyCode
  {
  }

  lemma NamedKeyFingerprintPart2(keyCode: UInt16)
    requires keyCode in {8, 9, 11, 12}
    ensures IsNamedKeyCode(keyCode) && 1 <= |TableName(keyCode).value|
    ensures !IsFallbackName(TableName(keyCode).value)
    ensures NamedKeyCodeOfFingerprint(Fingerprint(TableName(keyCode).value)) == keyCode
  {
  }

  lemma NamedKeyFingerprintPart3(keyCode: UInt16)
    requires keyCode in {13, 14, 15, 16}
    ensures IsNamedKeyCode(keyCode) && 1 <= |TableName(keyCode).value|
    ensures !IsFallbackName(TableName(keyCode).value)
    ensures NamedKeyCodeOfFingerprint(Fingerprint(TableName(keyCode).value)) == keyCode
  {
  }

  lemma NamedKeyFingerprintPart4(keyCode: UInt16)
    requires keyCode in {17, 18, 19, 20}
    ensures IsNamedKeyCode(keyCode) && 1 <= |TableName(keyCode).value|
    ensures !IsFallbackName(TableName(keyCode).value)
    ensures NamedKeyCodeOfFingerprint(Fingerprint(TableName(keyCode).value)) == keyCode
  {
  }

  lemma NamedKeyFingerprintPart5(keyCode: UInt16)
    requires keyCode in {21, 22, 23, 24}
    ensures IsNamedKeyCode(keyCode) && 1 <= |TableName(keyCode).value|
    ensures !IsFallbackName(TableName(keyCode).value)
    ensures NamedKeyCodeOfFingerprint(Fingerprint(TableName(keyCode).value)) == keyCode
  {
  }

  lemma NamedKeyFingerprintPart6(keyCode: UInt16)
    requires keyCode in {25, 26, 27, 28}
    ensures IsNamedKeyCode(keyCode) && 1 <= |TableName(keyCode).value|
    ensures !IsFallbackName(TableName(keyCode).value)
    ensures NamedKeyCodeOfFingerprint(Fingerprint(TableName(keyCode).value)) == keyCode
  {
  }

  lemma NamedKeyFingerprintPart7(keyCode: UInt16)
    requires keyCode in {29, 30, 31, 32}
    ensures IsNamedKeyCode(keyCode) && 1 <= |TableName(keyCode).value|
    ensures !IsFallbackName(TableName(keyCode).value)
    ensures NamedKeyCodeOfFingerprint(Fingerprint(TableName(keyCode).value)) == keyCode
  {
  }

  lemma NamedKeyFingerprintPart8(keyCode: UInt16)
    requires keyCode in {33, 34, 35, 36}
    ensures IsNamedKeyCode(keyCode) && 1 <= |TableName(keyCode).value|
    ensures !IsFallbackName(TableName(keyCode).value)
    ensures NamedKeyCodeOfFingerprint(Fingerprint(TableName(keyCode).value)) == keyCode
  {
  }

  lemma NamedKeyFingerprintPart9(keyCode: UInt16)
    requires keyCode in {37, 38, 39, 40}
    ensures IsNamedKeyCode(keyCode) && 1 <= |TableName(keyCode).value|
    ensures !IsFallbackName(TableName(keyCode).value)
    ensures NamedKeyCodeOfFingerprint(Fingerprint(TableName(keyCode).value)) == keyCode
  {
  }

  lemma NamedKeyFingerprintPart10(keyCode: UInt16)
    requires keyCode in {41, 42, 43, 44}
    ensures IsNamedKeyCode(keyCode) && 1 <= |TableName(keyCode).value|
    ensures !IsFallbackName(TableName(keyCode).value)
    ensures NamedKeyCodeOfFingerprint(Fingerprint(TableName(keyCode).value)) == keyCode
  {
  }

  lemma NamedKeyFingerprintPart11(keyCode: UInt16)
    requires keyCode in {45, 46, 47, 48}
    ensures IsNamedKeyCode(keyCode) && 1 <= |TableName(keyCode).value|
    ensures !IsFallbackName(TableName(keyCode).value)
    ensures NamedKeyCodeOfFingerprint(Fingerprint(TableName(keyCode).value)) == keyCode
  {
  }

  lemma NamedKeyFingerprintPart12(keyCode: UInt16)
    requires keyCode in {49, 50, 51, 53}
    ensures IsNamedKeyCode(keyCode) && 1 <= |TableName(keyCode).value|
    ensures !IsFallbackName(TableName(keyCode).value)
    ensures NamedKeyCodeOfFingerprint(Fingerprint(TableName(keyCode).value)) == keyCode
  {
  }

  lemma NamedKeyFingerprintPart13(keyCode: UInt16)
    requires keyCode in {54, 55, 56, 57}
    ensures IsNamedKeyCode(keyCode) && 1 <= |TableName(keyCode).value|
    ensures !IsFallbackName(TableName(keyCode).value)
    ensures NamedKeyCodeOfFingerprint(Fingerprint(TableName(keyCode).value)) == keyCode
  {
  }

  lemma NamedKeyFingerprintPart14(keyCode: UInt16)
    requires keyCode in {58, 59, 60, 61}
    ensures IsNamedKeyCode(keyCode) && 1 <= |TableName(keyCode).value|
    ensures !IsFallbackName(TableName(keyCode).value)
    ensures NamedKeyCodeOfFingerprint(Fingerprint(TableName(keyCode).value)) == keyCode
  {
  }

  lemma NamedKeyFingerprintPart15(keyCode: UInt16)
    requires keyCode in {62, 122, 120, 99}
    ensures IsNamedKeyCode(keyCode) && 1 <= |TableName(keyCode).value|
    ensures !IsFallbackName(TableName(keyCode).value)
    ensures NamedKeyCodeOfFingerprint(Fingerprint(TableName(keyCode).value)) == keyCode
  {
  }

  lemma NamedKeyFingerprintPart16(keyCode: UInt16)
    requires keyCode in {118, 96, 97, 98}
    ensures IsNamedKeyCode(keyCode) && 1 <= |TableName(keyCode).value|
    ensures !IsFallbackName(TableName(keyCode).value)
    ensures NamedKeyCodeOfFingerprint(Fingerprint(TableName(keyCode).value)) == keyCode
  {
  }

  lemma NamedKeyFingerprintPart17(keyCode: UInt16)
    requires keyCode in {100, 101, 109, 103}
    ensures IsNamedKeyCode(keyCode) && 1 <= |TableName(keyCode).value|
    ensures !IsFallbackName(TableName(keyCode).value)
    ensures NamedKeyCodeOfFingerprint(Fingerprint(TableName(keyCode).value)) == keyCode
  {
  }

  lemma NamedKeyFingerprintPart18(keyCode: UInt16)
    requires keyCode in {111, 123, 124, 125}
    ensures IsNamedKeyCode(keyCode) && 1 <= |TableName(keyCode).value|
    ensures !IsFallbackName(TableName(keyCode).value)
    ensures NamedKeyCodeOfFingerprint(Fingerprint(TableName(keyCode).value)) == keyCode
  {
  }

  lemma NamedKeyFingerprintPart19(keyCode: UInt16)
    requires keyCode in {126}
    ensures IsNamedKeyCode(keyCode) && 1 <= |TableName(keyCode).value|
    ensures !IsFallbackName(TableName(keyCode).value)
    ensures NamedKeyCodeOfFingerprint(Fingerprint(TableName(keyCode).value)) == keyCode
  {
  }

  /** Each named code has a name that is not a fallback name and whose
      fingerprint leads back to the code. */
  lemma NamedKeyFingerprint(keyCode: UInt16)
    requires IsNamedKeyCode(keyCode)
    ensures 1 <= |TableName(keyCode).value|
    ensures !IsFallbackName(TableName(keyCode).value)
    ensures NamedKeyCodeOfFingerprint(Fingerprint(TableName(keyCode).value)) == keyCode
  {
    if keyCode in {0, 1, 2, 3} {
      NamedKeyFingerprintPart0(keyCode);
    } else if keyCode in {4, 5, 6, 7} {
      NamedKeyFingerprintPart1(keyCode);
    } else if keyCode in {8, 9, 11, 12} {
      NamedKeyFingerprintPart2(keyCode);
    } else if keyCode in {13, 14, 15, 16} {
      NamedKeyFingerprintPart3(keyCode);
    } else if keyCode in {17, 18, 19, 20} {
      NamedKeyFingerprintPart4(keyCode);
    } else if keyCode in {21, 22, 23, 24} {
      NamedKeyFingerprintPart5(keyCode);
    } else if keyCode in {25, 26, 27, 28} {
      NamedKeyFingerprintPart6(keyCode);
    } else if keyCode in {29, 30, 31, 32} {
      NamedKeyFingerprintPart7(keyCode);
    } else if keyCode in {33, 34, 35, 36} {
      NamedKeyFingerprintPart8(keyCode);
    } else if keyCode in {37, 38, 39, 40} {
      NamedKeyFingerprintPart9(keyCode);
    } else if keyCode in {41, 42, 43, 44} {
      NamedKeyFingerprintPart10(keyCode);
    } else if keyCode in {45, 46, 47, 48} {
      NamedKeyFingerprintPart11(keyCode);
    } else if keyCode in {49, 50, 51, 53} {
      NamedKeyFingerprintPart12(keyCode);
    } else if keyCode in {54, 55, 56, 57} {
      NamedKeyFingerprintPart13(keyCode);
    } else if keyCode in {58, 59, 60, 61} {
      NamedKeyFingerprintPart14(keyCode);
    } else if keyCode in {62, 122, 120, 99} {
      NamedKeyFingerprintPart15(keyCode);
    } else if keyCode in {118, 96, 97, 98} {
      NamedKeyFingerprintPart16(keyCode);
    } else if keyCode in {100, 101, 109, 103} {
      NamedKeyFingerprintPart17(keyCode);
    } else if keyCode in {111, 123, 124, 125} {
      NamedKeyFingerprintPart18(keyCode);
    } else if keyCode in {126} {
      NamedKeyFingerprintPart19(keyCode);
    }
  }

  /** A name looks like a fallback name exactly when the code is not in the
      table. */
  lemma FallbackNameIffUnnamed(keyCode: UInt16)
    ensures IsFallbackName(KeyStringFromKeyCode(keyCode)) <==> !IsNamedKeyCode(keyCode)
  {
    if IsNamedKeyCode(keyCode) {
      NamedKeyFingerprint(keyCode);
    }
  }

  /** Distinct key codes never share a name: the table's names are pairwise
      distinct, none of them looks like a fallback name, and the fallback
      names differ because their decimal renderings do. */
  lemma {:induction false} KeyStringInjective(a: UInt16, b: UInt16)
    requires KeyStringFromKeyCode(a) == KeyStringFromKeyCode(b)
    ensures a == b
  {
    FallbackNameIffUnnamed(a);
    FallbackNameIffUnnamed(b);
    if IsNamedKeyCode(a) && IsNamedKeyCode(b) {
      NamedKeyFingerprint(a);
      NamedKeyFingerprint(b);
    } else if !IsNamedKeyCode(a) && !IsNamedKeyCode(b) {
      WrappedDecimalInjective("VK(", a, b);
    }
  }
}
