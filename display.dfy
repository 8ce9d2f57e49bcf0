/**
 * The five-slot display buffer and the helpers that write digits into it
 * (firmware/display.c, and the MkII.c copies of the same helpers), plus the
 * brightness comparator. Slot values are inverted segment patterns; EMPTY
 * lights nothing.
 */
module Display {
  import opened Bytes
  import Digits

  const EMPTY: bv8 := 0xFF
  const DECIMAL_POINT: bv8 := 0x01

  /** Digit segment patterns of firmware/display.c (PD7 = segment A, PD0 = point). */
  const DIGITS: seq<bv8> := [0x03, 0x9F, 0x25, 0x0D, 0x99, 0x49, 0x41, 0x1F, 0x01, 0x09]

  /** Digit segment patterns of MkII.c (PD0 = segment A), i.e. ~0x3f, ~0x06, ... */
  const DIGITS_MK2: seq<bv8> := [0xC0, 0xF9, 0xA4, 0xB0, 0x99, 0x92, 0x83, 0xF8, 0x80, 0x98]

  /** Blanking comparator value per brightness level; level 0 is the brightest. */
  const BRIGHT_TABLE: seq<bv8> := [255, 85, 28, 9]

  /** A table of ten digit patterns, none of which is the blank pattern. */
  predicate GlyphTable(digits: seq<bv8>)
  {
    |digits| == 10 && forall d :: 0 <= d < 10 ==> digits[d] != EMPTY && digits[d] != EMPTY ^ DECIMAL_POINT
  }

  lemma TablesAreGlyphTables()
    ensures GlyphTable(DIGITS) && GlyphTable(DIGITS_MK2)
  {
  }

  /** `TCNT2 & blink_mask`: the field is in its blank half of a blink. */
  predicate Blinking(phase: bv8, mask: bv8)
  {
    phase & mask != 0
  }

  /** `x ^ DECIMAL_POINT` when the flag is set. */
  function Point(x: bv8, on: bool): bv8
  {
    if on then x ^ DECIMAL_POINT else x
  }

  /**
   * The two patterns DisplayNum writes for num: tens then ones. Looking up
   * digits[] needs an index of at most 9, hence num <= 99 unless blanked.
   */
  function NumSlots(digits: seq<bv8>, num: byte, phase: bv8, mask: bv8, strip: bv8, dp: bv8): (r: (bv8, bv8))
    requires |digits| == 10
    requires Blinking(phase, mask) || num <= 99
  {
    if Blinking(phase, mask) then
      (EMPTY, EMPTY)
    else
      var tens := if strip & 1 != 0 && num < 10 then EMPTY else digits[num / 10];
      var ones := if strip & 2 != 0 && num == 0 then EMPTY else digits[num % 10];
      (Point(tens, dp & 2 != 0), Point(ones, dp & 1 != 0))
  }

  /** The buffer after DisplayNum(num, pos, ...): only slots pos and pos + 1 change. */
  function WriteNum(buf: seq<bv8>, digits: seq<bv8>, num: byte, pos: nat, phase: bv8, mask: bv8, strip: bv8, dp: bv8): (r: seq<bv8>)
    requires |digits| == 10 && pos + 1 < |buf|
    requires Blinking(phase, mask) || num <= 99
    ensures |r| == |buf|
    ensures forall i :: 0 <= i < |buf| && i != pos && i != pos + 1 ==> r[i] == buf[i]
    ensures (r[pos], r[pos + 1]) == NumSlots(digits, num, phase, mask, strip, dp)
  {
    var s := NumSlots(digits, num, phase, mask, strip, dp);
    buf[pos := s.0][pos + 1 := s.1]
  }

  /** The buffer after display.c's DisplayAlnum: a letter, a blank and the number in slots 2-3. */
  function WriteAlnum(buf: seq<bv8>, digits: seq<bv8>, letter: bv8, num: byte, phase: bv8, mask: bv8, dp: bv8): (r: seq<bv8>)
    requires |digits| == 10 && |buf| == 5
    requires Blinking(phase, mask) || num <= 99
    ensures |r| == 5
  {
    var b := buf[0 := Point(letter, dp & 8 != 0)][1 := Point(EMPTY, dp & 4 != 0)][4 := EMPTY];
    WriteNum(b, digits, num, 2, phase, mask, if mask == 0 then 1 else 0, dp)
  }

  /** The buffer after MkII.c's DisplayAlnum: letter, two blanks, the number in slots 3-4. */
  function WriteAlnumMk2(buf: seq<bv8>, digits: seq<bv8>, letter: bv8, num: byte, phase: bv8, mask: bv8): (r: seq<bv8>)
    requires |digits| == 10 && |buf| == 5
    requires Blinking(phase, mask) || num <= 99
    ensures |r| == 5
  {
    var b := buf[0 := letter][1 := EMPTY][2 := EMPTY];
    WriteNum(b, digits, num, 3, phase, mask, if mask == 0 then 1 else 0, 0)
  }

  /**
   * Reading the table back: for num <= 99 and no blink, strip or point, the
   * two slots are the glyphs of num / 10 and num % 10, so the digit can be
   * recovered from what is shown.
   */
  lemma {:induction false} NumSlotsShowDigits(digits: seq<bv8>, num: byte, phase: bv8)
    requires GlyphTable(digits) && num <= 99
    ensures var r := NumSlots(digits, num, phase, 0, 0, 0);
      exists t, o :: 0 <= t <= 9 && 0 <= o <= 9 && 10 * t + o == num && r == (digits[t], digits[o])
  {
    assert !Blinking(phase, 0);
    var t, o := num / 10, num % 10;
    assert 10 * t + o == num;
    assert NumSlots(digits, num, phase, 0, 0, 0) == (digits[t], digits[o]);
  }

  /** When the blink condition holds both slots are EMPTY, whatever the other flags. */
  lemma BlinkBlanksBoth(digits: seq<bv8>, num: byte, phase: bv8, mask: bv8, strip: bv8, dp: bv8)
    requires |digits| == 10 && Blinking(phase, mask)
    ensures NumSlots(digits, num, phase, mask, strip, dp) == (EMPTY, EMPTY)
  {
  }

  /**
   * Without blinking: the tens slot is EMPTY exactly when strip bit 0 is set
   * and num < 10, the ones slot exactly when strip bit 1 is set and num == 0;
   * a decimal point never turns a digit into a blank.
   */
  lemma {:induction false} StripBlanksExactly(digits: seq<bv8>, num: byte, phase: bv8, mask: bv8, strip: bv8, dp: bv8)
    requires GlyphTable(digits) && !Blinking(phase, mask) && num <= 99
    ensures var r := NumSlots(digits, num, phase, mask, strip, dp);
      (r.0 == Point(EMPTY, dp & 2 != 0) <==> strip & 1 != 0 && num < 10) &&
      (r.1 == Point(EMPTY, dp & 1 != 0) <==> strip & 2 != 0 && num == 0)
  {
    var d0, d1 := digits[num / 10], digits[num % 10];
    assert d0 != EMPTY && d0 != EMPTY ^ DECIMAL_POINT;
    assert d1 != EMPTY && d1 != EMPTY ^ DECIMAL_POINT;
    PointInjective(d0, EMPTY, dp & 2 != 0);
    PointInjective(d1, EMPTY, dp & 1 != 0);
  }

  lemma PointInjective(x: bv8, y: bv8, on: bool)
    ensures Point(x, on) == Point(y, on) <==> x == y
  {
    if on {
      assert (x ^ DECIMAL_POINT) ^ DECIMAL_POINT == x;
      assert (y ^ DECIMAL_POINT) ^ DECIMAL_POINT == y;
    }
  }

  /**
   * dp bit 1 toggles bit 0 of the tens slot and dp bit 0 toggles bit 0 of
   * the ones slot, relative to the same call without those bits.
   */
  lemma DecimalPointToggles(digits: seq<bv8>, num: byte, phase: bv8, mask: bv8, strip: bv8, dp: bv8)
    requires |digits| == 10 && !Blinking(phase, mask) && num <= 99
    ensures var r := NumSlots(digits, num, phase, mask, strip, dp);
      var plain := NumSlots(digits, num, phase, mask, strip, 0);
      r.0 == (if dp & 2 != 0 then plain.0 ^ 1 else plain.0) &&
      r.1 == (if dp & 1 != 0 then plain.1 ^ 1 else plain.1)
  {
  }

  /**
   * display.c's DisplayAlnum writes every slot: the result does not depend
   * on the old buffer. The letter carries the point of dp bit 3, slot 1 is
   * blank with the point of dp bit 2, slot 4 is blank, and the number is
   * stripped of its leading zero only when the field is not blinking.
   */
  lemma {:induction false} AlnumWritesEverySlot(buf1: seq<bv8>, buf2: seq<bv8>, digits: seq<bv8>, letter: bv8, num: byte, phase: bv8, mask: bv8, dp: bv8)
    requires |digits| == 10 && |buf1| == 5 && |buf2| == 5
    requires Blinking(phase, mask) || num <= 99
    ensures WriteAlnum(buf1, digits, letter, num, phase, mask, dp) == WriteAlnum(buf2, digits, letter, num, phase, mask, dp)
    ensures var r := WriteAlnum(buf1, digits, letter, num, phase, mask, dp);
      r[0] == Point(letter, dp & 8 != 0) && r[1] == Point(EMPTY, dp & 4 != 0) && r[4] == EMPTY &&
      (r[2], r[3]) == NumSlots(digits, num, phase, mask, if mask == 0 then 1 else 0, dp)
  {
    var b1 := buf1[0 := Point(letter, dp & 8 != 0)][1 := Point(EMPTY, dp & 4 != 0)][4 := EMPTY];
    var b2 := buf2[0 := Point(letter, dp & 8 != 0)][1 := Point(EMPTY, dp & 4 != 0)][4 := EMPTY];
    var strip: bv8 := if mask == 0 then 1 else 0;
    var r1 := WriteNum(b1, digits, num, 2, phase, mask, strip, dp);
    var r2 := WriteNum(b2, digits, num, 2, phase, mask, strip, dp);
    assert forall i :: 0 <= i < 5 ==> r1[i] == r2[i];
  }

  /** MkII.c's DisplayAlnum also writes every slot: letter, blank, blank, number. */
  lemma {:induction false} AlnumMk2WritesEverySlot(buf1: seq<bv8>, buf2: seq<bv8>, digits: seq<bv8>, letter: bv8, num: byte, phase: bv8, mask: bv8)
    requires |digits| == 10 && |buf1| == 5 && |buf2| == 5
    requires Blinking(phase, mask) || num <= 99
    ensures WriteAlnumMk2(buf1, digits, letter, num, phase, mask) == WriteAlnumMk2(buf2, digits, letter, num, phase, mask)
    ensures var r := WriteAlnumMk2(buf1, digits, letter, num, phase, mask);
      r[0] == letter && r[1] == EMPTY && r[2] == EMPTY &&
      (r[3], r[4]) == NumSlots(digits, num, phase, mask, if mask == 0 then 1 else 0, 0)
  {
    var r1 := WriteAlnumMk2(buf1, digits, letter, num, phase, mask);
    var r2 := WriteAlnumMk2(buf2, digits, letter, num, phase, mask);
    assert forall i :: 0 <= i < 5 ==> r1[i] == r2[i];
  }

  /**
   * brighttable[] lookup: one of 255, 85, 28, 9; a higher level blanks
   * earlier, so the comparator strictly falls as the level rises.
   */
  function Brightness(level: byte): (c: bv8)
    requires level < 4
    ensures c == 255 || c == 85 || c == 28 || c == 9
  {
    BRIGHT_TABLE[level]
  }

  lemma BrightnessFalls(a: byte, b: byte)
    requires a < b < 4
    ensures Brightness(a) > Brightness(b)
  {
  }

  /** The display buffer `display[5]` and the blanking comparator (OCR0A in MkII.c, OCR0B in display.c). */
  class Screen {
    const buf: array<bv8>
    /** The digit table of this hardware revision. */
    const digits: seq<bv8>
    var comparator: bv8

    ghost predicate Valid()
    {
      buf.Length == 5 && GlyphTable(digits)
    }

    /** The buffer's static initialiser (all EMPTY) and display_init's comparator setting. */
    constructor (digits: seq<bv8>, bright: byte)
      requires GlyphTable(digits) && bright < 4
      ensures Valid() && fresh(buf) && this.digits == digits
      ensures buf[..] == [EMPTY, EMPTY, EMPTY, EMPTY, EMPTY] && comparator == Brightness(bright)
    {
      this.digits := digits;
      buf := new bv8[5](_ => EMPTY);
      comparator := BRIGHT_TABLE[bright];
    }

    /** DisplayNum; MkII.c's four-argument version is the case dp == 0. */
    method DisplayNum(num: byte, pos: nat, phase: bv8, mask: bv8, strip: bv8, dp: bv8)
      requires Valid() && pos < 4
      requires Blinking(phase, mask) || num <= 99
      modifies buf
      ensures buf[..] == WriteNum(old(buf[..]), digits, num, pos, phase, mask, strip, dp)
    {
      if phase & mask != 0 {
        buf[pos] := EMPTY;
        buf[pos + 1] := EMPTY;
      } else {
        var tens, ones := Digits.IntToDigs2(num);
        buf[pos] := if strip & 1 != 0 && num < 10 then EMPTY else digits[tens];
        if dp & 2 != 0 {
          buf[pos] := buf[pos] ^ DECIMAL_POINT;
        }
        buf[pos + 1] := if strip & 2 != 0 && num == 0 then EMPTY else digits[ones];
        if dp & 1 != 0 {
          buf[pos + 1] := buf[pos + 1] ^ DECIMAL_POINT;
        }
      }
    }

    /** display.c's DisplayAlnum. */
    method DisplayAlnum(letter: bv8, num: byte, phase: bv8, mask: bv8, dp: bv8)
      requires Valid()
      requires Blinking(phase, mask) || num <= 99
      modifies buf
      ensures buf[..] == WriteAlnum(old(buf[..]), digits, letter, num, phase, mask, dp)
    {
      buf[0] := letter ^ (if dp & 8 != 0 then DECIMAL_POINT else 0);
      buf[1] := EMPTY ^ (if dp & 4 != 0 then DECIMAL_POINT else 0);
      buf[4] := EMPTY;
      DisplayNum(num, 2, phase, mask, if mask == 0 then 1 else 0, dp);
    }

    /** MkII.c's DisplayAlnum. */
    method DisplayAlnumMk2(letter: bv8, num: byte, phase: bv8, mask: bv8)
      requires Valid()
      requires Blinking(phase, mask) || num <= 99
      modifies buf
      ensures buf[..] == WriteAlnumMk2(old(buf[..]), digits, letter, num, phase, mask)
    {
      buf[0] := letter;
      buf[1] := EMPTY;
      buf[2] := EMPTY;
      DisplayNum(num, 3, phase, mask, if mask == 0 then 1 else 0, 0);
    }

    /** A single-slot write such as `display[COLON_POS] = COLON`. */
    method SetSlot(pos: nat, pattern: bv8)
      requires Valid() && pos < 5
      modifies buf
      ensures buf[..] == old(buf[..])[pos := pattern]
    {
      buf[pos] := pattern;
    }

    /** display_set_brightness, and MkII.c's inline `OCR0A = brighttable[bright]`. */
    method SetBrightness(level: byte)
      requires level < 4
      modifies this
      ensures comparator == Brightness(level)
    {
      comparator := BRIGHT_TABLE[level];
    }
  }
}
