/**
 * The Mk IV controller (firmware/main.c): EditNum with the rotary encoder,
 * InitRun, and one pass of the main loop, with firmware/input.h's key bits
 * and firmware/display.h's screen layout (minutes in slots 0-1, seconds in
 * slots 2-3, slot 4 the colon).
 */
module MkIV {
  import opened Bytes
  import opened Clock
  import Settings
  import opened Display
  import opened Timer

  /** Key bits of firmware/input.h. */
  const START: bv8 := 0x01
  const SELECT: bv8 := 0x02
  const SET: bv8 := 0x04
  const HOLD: bv8 := 0x08
  /** BUTTON_ENC, the encoder's push switch; its value is not defined in the headers modelled, so the free bit 7 stands for it. */
  const ENC: bv8 := 0x80

  /** Screen layout and patterns of firmware/display.h. */
  const HIGH_POS: nat := 0
  const LOW_POS: nat := 2
  const EXTRA_POS: nat := 4
  const COLON: bv8 := 0x7F
  const LETTER_C: bv8 := 0x63
  const LETTER_L: bv8 := 0xE3
  const LETTER_B: bv8 := 0xC1
  const LETTER_S: bv8 := 0x49
  const LETTER_A: bv8 := 0x11
  const LETTER_V: bv8 := 0x83
  const LETTER_E: bv8 := 0x61

  /** CLOCK_BLINKING(): the half-second of TCNT2 in which colons and points blink off. */
  const SECOND_HALF: bv8 := 0x80
  /** The blink mask of the field being edited. */
  const FIELD_BLINK: bv8 := 0x40

  /**
   * EditNum on the value `num`: the new value, and whether the edit is
   * committed. SELECT adds 10 (or clears on a hold), START adds 1, and
   * the encoder adds its signed turn.
   */
  function Edit(num: byte, buttons: bv8, diff: int8, max: byte): (r: (byte, bool))
    // no key and no turn: nothing changes and nothing is committed
    ensures buttons == 0 && diff == 0 ==> r == (num, false)
    // committed exactly by SET or the encoder switch
    ensures r.1 <==> buttons & (SET | ENC) != 0
    // after any key or turn the value is below max, and a value below max stays below it
    ensures (buttons != 0 || diff != 0 || num < max) && max >= 1 ==> r.0 < max
  {
    if buttons == 0 && diff == 0 then (num, false)
    else (Limited(Stepped(Tapped(num, buttons), buttons), diff, max), buttons & (SET | ENC) != 0)
  }

  /** The SELECT key: ten more, or 0 when held. */
  function Tapped(num: byte, buttons: bv8): byte
  {
    if buttons & SELECT == 0 then num
    else if buttons & HOLD != 0 then 0
    else Wrap(num + 10)
  }

  /** The START key: one more. */
  function Stepped(num: byte, buttons: bv8): byte
  {
    if buttons & START != 0 then Wrap(num + 1) else num
  }

  /**
   * The limit: a turn adds its signed amount and stops at 0 (anything above
   * 200 is taken for an underflow) and at max-1; without a turn the value
   * wraps to 0 at max.
   */
  function Limited(num: byte, diff: int8, max: byte): (r: byte)
    ensures max >= 1 ==> r < max
  {
    if diff != 0 then
      var turned := Wrap(num + diff);
      if turned > 200 then 0 else if turned >= max then Wrap(max - 1) else turned
    else if num >= max then 0 else num
  }

  /** x held to 0..max-1. */
  function Clamp(x: int, max: byte): (r: byte)
    requires max >= 1
    ensures r < max
    ensures 0 <= x < max ==> r == x
  {
    if x < 0 then 0 else if x >= max then max - 1 else x
  }

  /**
   * Turning the encoder with no key: the value moves by the turn and stops
   * at 0 and max-1, as long as num + diff lies in -55..200.
   */
  lemma EncoderClamps(num: byte, diff: int8, max: byte)
    requires max >= 1 && diff != 0 && -55 <= num + diff <= 200
    ensures Edit(num, 0, diff, max) == (Clamp(num + diff, max), false)
  {
  }

  /**
   * The window of the underflow guard is exact: for a value already below a
   * limit of 2..128, the turn lands on the clamped value if and only if
   * num + diff lies in -55..200. A wider turn up reads as an underflow and
   * gives 0; a turn down by more than 55 wraps past the guard and gives
   * max-1.
   */
  lemma {:induction false} EncoderGuardWindow(num: byte, diff: int8, max: byte)
    requires 2 <= max <= 128 && num < max && diff != 0
    ensures Edit(num, 0, diff, max).0 == Clamp(num + diff, max) <==> -55 <= num + diff <= 200
    ensures num + diff > 200 ==> Edit(num, 0, diff, max).0 == 0
    ensures num + diff < -55 ==> Edit(num, 0, diff, max).0 == max - 1
  {
    var s := num + diff;
    if s < -55 {
      assert Wrap(s) == s + 256;
    } else if s < 0 {
      assert Wrap(s) == s + 256;
    }
  }

  /**
   * Keys without the encoder, on a value below a limit of at most 100: the
   * value moves by 10 for SELECT (or restarts at 0 on a SELECT hold) and by
   * 1 for START, and wraps to 0 when it reaches the limit.
   */
  lemma ButtonsWrap(num: byte, buttons: bv8, max: byte)
    requires buttons != 0 && num < max <= 100
    ensures var base := if buttons & SELECT == 0 then num else if buttons & HOLD != 0 then 0 else num + 10;
      var target := base + (if buttons & START != 0 then 1 else 0);
      Edit(num, buttons, 0, max).0 == (if target < max then target else 0)
  {
  }

  /** The two-number screens: hi in slots 0-1, the extra slot 4, lo in slots 2-3. */
  function Pair(d: seq<bv8>, phase: bv8, hi: byte, hiMask: bv8, hiStrip: bv8, hiDp: bv8, extra: bv8,
                lo: byte, loMask: bv8): (r: seq<bv8>)
    requires |d| == 5 && hi <= 99 && lo <= 99
    ensures |r| == 5 && r[EXTRA_POS] == extra
    ensures (r[0], r[1]) == NumSlots(DIGITS, hi, phase, hiMask, hiStrip, hiDp)
    ensures (r[2], r[3]) == NumSlots(DIGITS, lo, phase, loMask, 0, 0)
  {
    var shown := WriteNum(d, DIGITS, hi, HIGH_POS, phase, hiMask, hiStrip, hiDp);
    WriteNum(shown[EXTRA_POS := extra], DIGITS, lo, LOW_POS, phase, loMask, 0, 0)
  }

  /**
   * The screen of a menu or edit state: minutes:seconds for time and delay
   * (the delay marked by the point of the high digit, the time by the
   * colon), a letter and the number for count and MLU; in an edit state the
   * field being edited blinks and no leading zero is stripped.
   */
  function MenuScreen(m: Machine): (d: seq<bv8>)
    requires Inv(m) && (Browsing(m.state) || Editing(m.state))
    ensures |d| == 5
    // exposure time: minutes (leading zero stripped on the menu), colon, seconds
    ensures m.state in {Time, TimeSetMins, TimeSetSecs} ==>
      d[EXTRA_POS] == COLON &&
      (d[0], d[1]) == NumSlots(DIGITS, m.cfg.timeMin, m.clk.phase, if m.state == TimeSetMins then FIELD_BLINK else 0, if m.state == Time then 3 else 0, 0) &&
      (d[2], d[3]) == NumSlots(DIGITS, m.cfg.timeSec, m.clk.phase, if m.state == TimeSetSecs then FIELD_BLINK else 0, 0, 0)
    // delay: the same, marked by the point of the second minutes digit instead of the colon
    ensures m.state in {Delay, DelaySetMins, DelaySetSecs} ==>
      d[EXTRA_POS] == EMPTY &&
      (d[0], d[1]) == NumSlots(DIGITS, m.cfg.delayMin, m.clk.phase, if m.state == DelaySetMins then FIELD_BLINK else 0, if m.state == Delay then 3 else 0, 1) &&
      (d[2], d[3]) == NumSlots(DIGITS, m.cfg.delaySec, m.clk.phase, if m.state == DelaySetSecs then FIELD_BLINK else 0, 0, 0)
    // count and MLU: the letter, a blank, the number, a blank
    ensures m.state in {Count, CountSet} ==>
      d[0] == LETTER_C && d[1] == EMPTY && d[4] == EMPTY &&
      (d[2], d[3]) == (if m.state == Count then NumSlots(DIGITS, m.cfg.count, m.clk.phase, 0, 1, 0)
                       else NumSlots(DIGITS, m.cfg.count, m.clk.phase, FIELD_BLINK, 0, 0))
    ensures m.state in {Mlu, MluSet} ==>
      d[0] == LETTER_L && d[1] == EMPTY && d[4] == EMPTY &&
      (d[2], d[3]) == (if m.state == Mlu then NumSlots(DIGITS, m.cfg.mlu, m.clk.phase, 0, 1, 0)
                       else NumSlots(DIGITS, m.cfg.mlu, m.clk.phase, FIELD_BLINK, 0, 0))
  {
    AlnumWritesEverySlot(m.disp, m.disp, DIGITS, LETTER_C, m.cfg.count, m.clk.phase, if m.state == CountSet then FIELD_BLINK else 0, 0);
    AlnumWritesEverySlot(m.disp, m.disp, DIGITS, LETTER_L, m.cfg.mlu, m.clk.phase, if m.state == MluSet then FIELD_BLINK else 0, 0);
    var c := m.cfg;
    var ph := m.clk.phase;
    match m.state
    case Time => Pair(m.disp, ph, c.timeMin, 0, 3, 0, COLON, c.timeSec, 0)
    case Delay => Pair(m.disp, ph, c.delayMin, 0, 3, 1, EMPTY, c.delaySec, 0)
    case Count => WriteAlnum(m.disp, DIGITS, LETTER_C, c.count, ph, 0, 0)
    case Mlu => WriteAlnum(m.disp, DIGITS, LETTER_L, c.mlu, ph, 0, 0)
    case TimeSetMins => Pair(m.disp, ph, c.timeMin, FIELD_BLINK, 0, 0, COLON, c.timeSec, 0)
    case TimeSetSecs => Pair(m.disp, ph, c.timeMin, 0, 0, 0, COLON, c.timeSec, FIELD_BLINK)
    case DelaySetMins => Pair(m.disp, ph, c.delayMin, FIELD_BLINK, 0, 1, EMPTY, c.delaySec, 0)
    case DelaySetSecs => Pair(m.disp, ph, c.delayMin, 0, 0, 1, EMPTY, c.delaySec, FIELD_BLINK)
    case CountSet => WriteAlnum(m.disp, DIGITS, LETTER_C, c.count, ph, FIELD_BLINK, 0)
    case MluSet => WriteAlnum(m.disp, DIGITS, LETTER_L, c.mlu, ph, FIELD_BLINK, 0)
  }

  /** The slot of the first digit of the number an edit state changes. */
  function EditPos(s: State): (p: nat)
    requires Editing(s)
    ensures p == HIGH_POS || p == LOW_POS
  {
    if s == TimeSetMins || s == DelaySetMins then HIGH_POS else LOW_POS
  }

  /**
   * An edit screen blinks exactly the number being edited: its two slots
   * are blank exactly in the blink half of TCNT2 (bit 6), and the other
   * number of a minutes:seconds pair stays lit throughout.
   */
  lemma EditBlinksField(m: Machine)
    requires Inv(m) && Editing(m.state)
    ensures var d := MenuScreen(m);
      var p := EditPos(m.state);
      (d[p] == EMPTY && d[p + 1] == EMPTY <==> Blinking(m.clk.phase, FIELD_BLINK)) &&
      (m.state !in {CountSet, MluSet} ==> d[LOW_POS - p] != EMPTY && d[LOW_POS - p + 1] != EMPTY)
  {
    TablesAreGlyphTables();
  }

  /** The screen of RUN_AUTO and RUN_MANUAL: time left (or exposures left) and a blinking colon. */
  function RunScreen(m: Machine): (d: seq<bv8>)
    requires Inv(m)
    ensures |d| == 5 && d[EXTRA_POS] == (if m.clk.phase & SECOND_HALF != 0 then EMPTY else COLON)
    // time left: gMin (leading zero stripped) and gSec with the point of its last digit
    ensures m.cmode == 0 ==>
      (d[0], d[1]) == NumSlots(DIGITS, Wrap(m.clk.min), m.clk.phase, 0, 3, 0) &&
      (d[2], d[3]) == NumSlots(DIGITS, Wrap(m.clk.sec), m.clk.phase, 0, 0, 1)
    // exposures left: C and the count, with the point of its last digit
    ensures m.cmode != 0 ==>
      d[0] == LETTER_C && d[1] == EMPTY &&
      (d[2], d[3]) == NumSlots(DIGITS, m.remaining, m.clk.phase, 0, 1, 1)
  {
    AlnumWritesEverySlot(m.disp, m.disp, DIGITS, LETTER_C, m.remaining, m.clk.phase, 0, 1);
    var ph := m.clk.phase;
    var shown :=
      if m.cmode == 0 then
        WriteNum(WriteNum(m.disp, DIGITS, Wrap(m.clk.min), HIGH_POS, ph, 0, 3, 0),
                 DIGITS, Wrap(m.clk.sec), LOW_POS, ph, 0, 0, 1)
      else
        WriteAlnum(m.disp, DIGITS, LETTER_C, m.remaining, ph, 0, 1);
    shown[EXTRA_POS := if ph & SECOND_HALF != 0 then EMPTY else COLON]
  }

  /** The screen of ST_WAIT: the delay left (or exposures left) with a blinking point. */
  function WaitScreen(m: Machine): (d: seq<bv8>)
    requires Inv(m)
    ensures |d| == 5 && d[EXTRA_POS] == EMPTY
    // delay left: gMin with a point that blinks, then gSec
    ensures m.cmode == 0 ==>
      (d[0], d[1]) == NumSlots(DIGITS, Wrap(m.clk.min), m.clk.phase, 0, 3, if m.clk.phase & SECOND_HALF != 0 then 0 else 1) &&
      (d[2], d[3]) == NumSlots(DIGITS, Wrap(m.clk.sec), m.clk.phase, 0, 0, 0)
    // exposures left: C, a blinking point in slot 1, and the count
    ensures m.cmode != 0 ==>
      d[0] == LETTER_C && d[1] == Point(EMPTY, m.clk.phase & SECOND_HALF == 0) &&
      (d[2], d[3]) == NumSlots(DIGITS, m.remaining, m.clk.phase, 0, 1, 0)
  {
    AlnumWritesEverySlot(m.disp, m.disp, DIGITS, LETTER_C, m.remaining, m.clk.phase, 0, if m.clk.phase & SECOND_HALF != 0 then 0 else 4);
    var ph := m.clk.phase;
    var blink := ph & SECOND_HALF != 0;
    var shown :=
      if m.cmode == 0 then
        WriteNum(WriteNum(m.disp, DIGITS, Wrap(m.clk.min), HIGH_POS, ph, 0, 3, if blink then 0 else 1),
                 DIGITS, Wrap(m.clk.sec), LOW_POS, ph, 0, 0, 0)
      else
        WriteAlnum(m.disp, DIGITS, LETTER_C, m.remaining, ph, 0, if blink then 0 else 4);
    shown[EXTRA_POS := EMPTY]
  }

  /** The screen of ST_SAVED. */
  function SavedScreen(d: seq<bv8>): (r: seq<bv8>)
    requires |d| == 5
    ensures r == [LETTER_S, LETTER_A, LETTER_V, LETTER_E, EMPTY]
  {
    d[0 := LETTER_S][1 := LETTER_A][2 := LETTER_V][3 := LETTER_E][4 := EMPTY]
  }

  /** The menu screens: ST_TIME, ST_DELAY, ST_COUNT, ST_MLU. */
  function OnBrowse(m: Machine, buttons: bv8): (r: Machine)
    requires Inv(m) && Browsing(m.state)
    ensures Inv(r) && r == m.(disp := MenuScreen(m), state := r.state)
    ensures r.state == (if buttons & SELECT != 0 then Next(m.state) else if buttons & SET != 0 then EditOf(m.state) else m.state)
  {
    Browse(m.(disp := MenuScreen(m)), buttons & SELECT != 0, buttons & SET != 0)
  }

  /** ST_BRIGHT: the level shown as 1 (dimmest) to 4 (brightest), then the keys. */
  function OnBright(m: Machine, buttons: bv8, diff: int8): (r: Machine)
    requires Inv(m) && m.state == Bright
    ensures Inv(r) && r.state in {Time, Bright, Saved}
    ensures r.shutter == m.shutter && r.clk == m.clk && r.prevstate == m.prevstate
  {
    OnBrightKeys(m.(disp := WriteAlnum(m.disp, DIGITS, LETTER_B, 4 - m.cfg.bright, m.clk.phase, 0, 0)), buttons, diff)
  }

  /**
   * The keys of ST_BRIGHT: SELECT back to the time screen; else a turn
   * changes the level without updating the comparator; else SET dims;
   * else the run key saves.
   */
  function OnBrightKeys(m: Machine, buttons: bv8, diff: int8): (r: Machine)
    requires Inv(m) && m.state == Bright
    ensures Inv(r) && r.shutter == m.shutter && r.clk == m.clk && r.prevstate == m.prevstate
    ensures buttons & SELECT != 0 ==> r == m.(state := Time)
    // the encoder's quirk: the level changes, the comparator does not
    ensures buttons & SELECT == 0 && diff != 0 ==>
      r.state == Bright && r.cfg == m.cfg.(bright := (m.cfg.bright - diff) % 4) && r.comparator == m.comparator
    ensures buttons & SELECT == 0 && diff == 0 && buttons & SET != 0 ==> r == Dim(m)
    ensures buttons & (SELECT | SET) == 0 && diff == 0 && buttons & (START | ENC) != 0 ==>
      r.state == Saved && r.remaining == 15 && r.cfg == m.cfg && Settings.Decode(r.eeprom, Settings.DEFAULTS) == m.cfg
    ensures buttons & (SELECT | SET | START | ENC) == 0 && diff == 0 ==> r == m
  {
    if buttons & SELECT != 0 then m.(state := Time)
    else if diff != 0 then m.(cfg := m.cfg.(bright := (m.cfg.bright - diff) % 4))
    else if buttons & SET != 0 then Dim(m)
    else if buttons & (START | ENC) != 0 then SaveSettings(m)
    else m
  }

  /** ST_SAVED. */
  function OnSaved(m: Machine): (r: Machine)
    requires Inv(m) && m.state == Saved
    ensures Inv(r) && r == m.(disp := r.disp, state := r.state, remaining := m.remaining - 1)
    ensures r.state == (if m.remaining == 1 then Bright else Saved)
  {
    SavedCountdown(m.(disp := SavedScreen(m.disp)))
  }

  /**
   * Editing keeps every setting within what Load accepts: an untouched
   * field keeps its value, and a touched one ends below the edit limit.
   */
  lemma EditKeepsRange(c: Settings.Config, s: State, buttons: bv8, diff: int8)
    requires Settings.InRange(c) && Editing(s)
    ensures var f := FieldOf(s);
      Settings.InRange(Settings.With(c, f, Edit(Settings.Get(c, f), buttons, diff, Limit(s)).0))
  {
    var f := FieldOf(s);
    var e := Edit(Settings.Get(c, f), buttons, diff, Limit(s));
    if buttons != 0 || diff != 0 {
      Settings.InRangeByField(c);
      LimitWithinRange(s, e.0);
      Settings.InRangeByField(Settings.With(c, f, e.0));
    }
  }

  /** The edit states: show the screen, then EditNum on the state's field. */
  function OnEdit(m: Machine, buttons: bv8, diff: int8): (r: Machine)
    requires Inv(m) && Editing(m.state)
    ensures Inv(r)
    ensures var e := Edit(Settings.Get(m.cfg, FieldOf(m.state)), buttons, diff, Limit(m.state));
      r.cfg == Settings.With(m.cfg, FieldOf(m.state), e.0) &&
      r.state == (if e.1 then Committed(m.state) else m.state)
    ensures r == m.(disp := r.disp, cfg := r.cfg, state := r.state, clk := r.clk)
    ensures r.clk == (if buttons == 0 && diff == 0 then m.clk else m.clk.(phase := 0))
  {
    var f := FieldOf(m.state);
    var e := Edit(Settings.Get(m.cfg, f), buttons, diff, Limit(m.state));
    EditKeepsRange(m.cfg, m.state, buttons, diff);
    m.(disp := MenuScreen(m),
       cfg := Settings.With(m.cfg, f, e.0),
       clk := if buttons == 0 && diff == 0 then m.clk else m.clk.(phase := 0),
       state := if e.1 then Committed(m.state) else m.state)
  }

  /** ST_RUN_PRIME: raise the mirror first if there is an MLU time, else start the exposure at once. */
  function OnRunPrime(m: Machine): (r: (Machine, bool))
    requires Inv(m) && m.state == RunPrime
    ensures Inv(r.0) && (r.1 ==> Rank(r.0) < Rank(m))
    ensures m.cfg.mlu > 0 ==> !r.1 && r.0 == m.(state := MluPrime, shutter := true, disp := r.0.disp)
    ensures m.cfg.mlu == 0 ==> r == (InitRun(m), true)
  {
    if m.cfg.mlu > 0 then
      var raised := RaiseMirror(m);
      (raised.(disp := WriteAlnum(raised.disp, DIGITS, LETTER_L, raised.cfg.mlu, raised.clk.phase, 0, 0)), false)
    else
      (InitRun(m), true)
  }

  /** ST_RUN_AUTO and ST_RUN_MANUAL: end the exposure when the clock has stopped, else show it. */
  function OnRun(m: Machine): (r: (Machine, bool))
    requires Inv(m) && (m.state == RunAuto || m.state == RunManual)
    ensures Inv(r.0) && (r.1 ==> Rank(r.0) < Rank(m))
    ensures m.state == RunAuto && m.clk.dir == STOPPED ==> r == ExposureDone(m)
    ensures !(m.state == RunAuto && m.clk.dir == STOPPED) ==> r == (m.(disp := RunScreen(m)), false)
  {
    if m.state == RunAuto && m.clk.dir == STOPPED then ExposureDone(m)
    else (m.(disp := RunScreen(m)), false)
  }

  /** ST_MLU_PRIME (falling through) and ST_MLU_WAIT. */
  function OnMlu(m: Machine): (r: (Machine, bool))
    requires Inv(m) && (m.state == MluPrime || m.state == MluWait)
    ensures Inv(r.0) && (r.1 ==> Rank(r.0) < Rank(m))
    ensures r.0.cfg == m.cfg && r.0.prevstate == m.prevstate && r.0.remaining == m.remaining && r.0.cmode == m.cmode
    ensures m.state == MluPrime ==>
      !r.1 && r.0.state == MluWait && !r.0.shutter && r.0.clk == Counter(0, m.cfg.mlu, DOWN, true, 0)
    ensures m.state == MluWait && m.clk.dir != STOPPED ==> !r.1 && r.0 == m.(disp := r.0.disp)
    ensures m.state == MluWait && m.clk.dir == STOPPED ==>
      r.1 && r.0 == InitRun(m.(disp := r.0.disp))
  {
    var waiting := if m.state == MluPrime then PrimeMlu(m) else m;
    var shown := waiting.(disp := WriteAlnum(waiting.disp, DIGITS, LETTER_L, Wrap(waiting.clk.sec),
                                             waiting.clk.phase, 0, 0));
    if shown.clk.dir == STOPPED then (MluDone(shown), true) else (shown, false)
  }

  /** ST_WAIT: show the delay, and prime the next exposure when it has run out. */
  function OnWait(m: Machine): (r: (Machine, bool))
    requires Inv(m) && m.state == Wait
    ensures Inv(r.0) && (r.1 ==> Rank(r.0) < Rank(m))
    ensures m.clk.dir == STOPPED ==>
      r.1 && r.0 == m.(disp := WaitScreen(m), state := RunPrime, clk := m.clk.(enabled := false))
    ensures m.clk.dir != STOPPED ==> r == (m.(disp := WaitScreen(m)), false)
  {
    var shown := m.(disp := WaitScreen(m));
    if m.clk.dir == STOPPED then (WaitDone(shown), true) else (shown, false)
  }

  /** One execution of the switch; the flag is `goto newstate`. */
  function OnCase(m: Machine, buttons: bv8, diff: int8): (r: (Machine, bool))
    requires Inv(m)
    ensures Inv(r.0) && (r.1 ==> Rank(r.0) < Rank(m))
    ensures r.0.prevstate == m.prevstate
    // no case opens the shutter or starts the clock outside a run
    ensures Quiet(m) ==> Quiet(r.0)
    // a jump back only happens between run states
    ensures r.1 ==> Running(m.state) && Running(r.0.state)
  {
    if Running(m.state) then OnRunCase(m) else (OnSettingsCase(m, buttons, diff), false)
  }

  /** The cases of the switch before ST_RUN_PRIME: menu, options and edit states. */
  function OnSettingsCase(m: Machine, buttons: bv8, diff: int8): (r: Machine)
    requires Inv(m) && !Running(m.state)
    ensures Inv(r) && !Running(r.state)
    ensures r.prevstate == m.prevstate && r.shutter == m.shutter && r.clk.enabled == m.clk.enabled
  {
    if Browsing(m.state) then OnBrowse(m, buttons) else OnOptionCase(m, buttons, diff)
  }

  /** The brightness screen, SAVED and the edit states. */
  function OnOptionCase(m: Machine, buttons: bv8, diff: int8): (r: Machine)
    requires Inv(m) && !Running(m.state) && !Browsing(m.state)
    ensures Inv(r) && !Running(r.state)
    ensures r.prevstate == m.prevstate && r.shutter == m.shutter && r.clk.enabled == m.clk.enabled
  {
    if m.state == Bright then OnBright(m, buttons, diff)
    else if m.state == Saved then OnSaved(m)
    else OnEdit(m, buttons, diff)
  }

  /** The cases of the switch from ST_RUN_PRIME on; the keys are handled after the switch. */
  function OnRunCase(m: Machine): (r: (Machine, bool))
    requires Inv(m) && Running(m.state)
    ensures Inv(r.0) && (r.1 ==> Rank(r.0) < Rank(m) && Running(r.0.state))
    ensures r.0.prevstate == m.prevstate && r.0.cfg == m.cfg
    ensures Quiet(m) ==> Quiet(r.0)
    // a run state ends in a run state, or in the remembered screen with everything stopped
    ensures Running(r.0.state) || (r.0.state == m.prevstate && !r.0.shutter && !r.0.clk.enabled)
    // bulb mode is entered with the clock at the exposure time, and does not move by itself
    ensures m.state != RunManual && r.0.state == RunManual ==>
      r.0.clk.min == m.cfg.timeMin && r.0.clk.sec == m.cfg.timeSec
    ensures m.state == RunManual ==> !r.1 && r.0 == m.(disp := r.0.disp)
  {
    match m.state
    case RunPrime => OnRunPrime(m)
    case RunManual => OnRun(m)
    case MluPrime => OnMlu(m)
    case MluWait => OnMlu(m)
    case RunAuto => OnRun(m)
    case Wait => OnWait(m)
  }

  /** The switch with its `goto newstate` re-dispatches. */
  function Dispatched(m: Machine, buttons: bv8, diff: int8): (r: Machine)
    requires Inv(m)
    ensures Inv(r)
    decreases Rank(m)
  {
    var c := OnCase(m, buttons, diff);
    if c.1 then Dispatched(c.0, buttons, diff) else c.0
  }

  /** How many times the switch runs in one pass: at most three. */
  function Hops(m: Machine, buttons: bv8, diff: int8): (n: nat)
    requires Inv(m)
    ensures 1 <= n <= Rank(m) + 1 <= 3
    decreases Rank(m)
  {
    var c := OnCase(m, buttons, diff);
    if c.1 then 1 + Hops(c.0, buttons, diff) else 1
  }

  /** One pass of the main loop on the polled keys and encoder turn. */
  function Step(m: Machine, buttons: bv8, diff: int8): (r: Machine)
    requires Inv(m)
    ensures Inv(r)
  {
    var go := buttons & (START | ENC) != 0;
    var started := go && Browsing(m.state);
    var keys := if started then 0 else buttons;
    var dispatched := Dispatched(StartRun(m, go), keys, diff);
    RunKeys(dispatched, keys & (START | ENC) != 0, keys & SELECT != 0, keys & SET != 0)
  }

  /** Passes of the main loop, one per input, with no interrupt between them. */
  function Steps(m: Machine, inputs: seq<(bv8, int8)>): (r: Machine)
    requires Inv(m)
    ensures Inv(r)
    decreases |inputs|
  {
    if inputs == [] then m else Steps(Step(m, inputs[0].0, inputs[0].1), inputs[1..])
  }

  /** One execution of the switch, and the passes that follow it when it jumps back. */
  lemma Redispatch(m: Machine, buttons: bv8, diff: int8)
    requires Inv(m)
    ensures var c := OnCase(m, buttons, diff);
      if c.1 then Dispatched(m, buttons, diff) == Dispatched(c.0, buttons, diff) && Hops(m, buttons, diff) == 1 + Hops(c.0, buttons, diff)
      else Dispatched(m, buttons, diff) == c.0 && Hops(m, buttons, diff) == 1
  {
  }

  /** Outside a menu screen the run key is not a start, and the keys reach the switch unchanged. */
  lemma StepElsewhere(m: Machine, buttons: bv8, diff: int8)
    requires Inv(m) && !Browsing(m.state)
    ensures Step(m, buttons, diff) ==
      RunKeys(Dispatched(m, buttons, diff), buttons & (START | ENC) != 0, buttons & SELECT != 0, buttons & SET != 0)
  {
    assert StartRun(m, buttons & (START | ENC) != 0) == m;
  }

  /** The switch outside the menu screens and the run states is one execution of its case. */
  lemma SettingsStep(m: Machine, buttons: bv8, diff: int8)
    requires Inv(m) && !Running(m.state) && !Browsing(m.state)
    ensures Step(m, buttons, diff) == OnOptionCase(m, buttons, diff)
  {
    Redispatch(m, buttons, diff);
    StepElsewhere(m, buttons, diff);
  }

  /** The switch in an edit state. */
  lemma EditStep(m: Machine, buttons: bv8, diff: int8)
    requires Inv(m) && Editing(m.state)
    ensures Step(m, buttons, diff) == OnEdit(m, buttons, diff)
  {
    SettingsStep(m, buttons, diff);
    assert OnOptionCase(m, buttons, diff) == OnEdit(m, buttons, diff);
  }

  /** The switch in the brightness screen: show the level, then handle the keys. */
  lemma BrightStep(m: Machine, buttons: bv8, diff: int8)
    requires Inv(m) && m.state == Bright
    ensures var shown := m.(disp := WriteAlnum(m.disp, DIGITS, LETTER_B, 4 - m.cfg.bright, m.clk.phase, 0, 0));
      Step(m, buttons, diff) == OnBrightKeys(shown, buttons, diff)
  {
    SettingsStep(m, buttons, diff);
    assert OnOptionCase(m, buttons, diff) == OnBright(m, buttons, diff);
  }

  lemma {:induction false} DispatchedQuiet(m: Machine, buttons: bv8, diff: int8)
    requires Inv(m) && Quiet(m)
    ensures Quiet(Dispatched(m, buttons, diff))
    decreases Rank(m)
  {
    Redispatch(m, buttons, diff);
    var c := OnCase(m, buttons, diff);
    if c.1 {
      DispatchedQuiet(c.0, buttons, diff);
    }
  }

  /**
   * Every pass of the loop keeps the shutter closed and the clock stopped
   * outside a run: with interrupts in between (Elapse keeps it too), no
   * sequence of keys opens the shutter in a menu, edit or option screen.
   */
  lemma StepQuiet(m: Machine, buttons: bv8, diff: int8)
    requires Inv(m) && Quiet(m)
    ensures Quiet(Step(m, buttons, diff))
  {
    var go := buttons & (START | ENC) != 0;
    var keys := if go && Browsing(m.state) then 0 else buttons;
    DispatchedQuiet(StartRun(m, go), keys, diff);
  }

  /**
   * A menu screen without the run key: SELECT moves to the next screen, else
   * SET enters the screen's edit state; the settings stay as they are and
   * the screen shows them.
   */
  lemma MenuKeys(m: Machine, buttons: bv8, diff: int8)
    requires Inv(m) && Browsing(m.state) && buttons & (START | ENC) == 0
    ensures var r := Step(m, buttons, diff);
      r.state == (if buttons & SELECT != 0 then Next(m.state) else if buttons & SET != 0 then EditOf(m.state) else m.state) &&
      r.cfg == m.cfg && r.disp == MenuScreen(m) && r.clk == m.clk && r.shutter == m.shutter
  {
    assert StartRun(m, false) == m;
    Redispatch(m, buttons, diff);
  }

  /**
   * An edit state: the field becomes what Edit makes of it, every other
   * setting stays, and SET or the encoder switch commits to the next state.
   */
  lemma EditKeys(m: Machine, buttons: bv8, diff: int8)
    requires Inv(m) && Editing(m.state)
    ensures var r := Step(m, buttons, diff);
      var f := FieldOf(m.state);
      var e := Edit(Settings.Get(m.cfg, f), buttons, diff, Limit(m.state));
      r.cfg == Settings.With(m.cfg, f, e.0) &&
      r.state == (if buttons & (SET | ENC) != 0 then Committed(m.state) else m.state) &&
      r.shutter == m.shutter && r.remaining == m.remaining
  {
    EditStep(m, buttons, diff);
  }

  /**
   * The brightness screen: SELECT goes back to the time screen with the
   * settings as they are.
   */
  lemma BrightSelect(m: Machine, buttons: bv8, diff: int8)
    requires Inv(m) && m.state == Bright && buttons & SELECT != 0
    ensures var r := Step(m, buttons, diff); r.state == Time && r.cfg == m.cfg
  {
    BrightStep(m, buttons, diff);
  }

  /**
   * The brightness screen: a turn changes the level but, unlike the SET
   * key, leaves the comparator, and so the actual brightness, as it was.
   */
  lemma BrightTurn(m: Machine, buttons: bv8, diff: int8)
    requires Inv(m) && m.state == Bright && buttons & SELECT == 0 && diff != 0
    ensures var r := Step(m, buttons, diff);
      r.state == Bright && r.cfg.bright == (m.cfg.bright - diff) % 4 && r.comparator == m.comparator
  {
    var shown := m.(disp := WriteAlnum(m.disp, DIGITS, LETTER_B, 4 - m.cfg.bright, m.clk.phase, 0, 0));
    var r := OnBrightKeys(shown, buttons, diff);
    assert r.state == Bright && r.cfg.bright == (m.cfg.bright - diff) % 4 && r.comparator == m.comparator;
    BrightStep(m, buttons, diff);
  }

  /**
   * The brightness screen, the keys: SET dims the display one level, and
   * the run key saves the settings, which load back unchanged, and shows
   * SAVED for 15 passes.
   */
  lemma BrightKeys(m: Machine, buttons: bv8)
    requires Inv(m) && m.state == Bright && buttons & SELECT == 0 && buttons & (SET | START | ENC) != 0
    ensures var r := Step(m, buttons, 0);
      (buttons & SET != 0 ==>
        r.state == Bright && r.cfg.bright == Dimmer(m.cfg.bright) && r.comparator == Brightness(r.cfg.bright)) &&
      (buttons & SET == 0 ==>
        r.state == Saved && r.remaining == 15 && Settings.Decode(r.eeprom, Settings.DEFAULTS) == m.cfg)
  {
    BrightStep(m, buttons, 0);
  }

  /**
   * SAVED ignores every key and counts its passes down: while passes are
   * left it stays, and on the last one it returns to the brightness screen.
   */
  lemma {:induction false} SavedCountsDown(m: Machine, inputs: seq<(bv8, int8)>)
    requires Inv(m) && m.state == Saved && |inputs| <= m.remaining
    ensures var r := Steps(m, inputs);
      r.remaining == m.remaining - |inputs| &&
      r.state == (if |inputs| == m.remaining then Bright else Saved) &&
      r.cfg == m.cfg && r.eeprom == m.eeprom
    decreases |inputs|
  {
    if inputs != [] {
      var b, d := inputs[0].0, inputs[0].1;
      SettingsStep(m, b, d);
      var m1 := Step(m, b, d);
      assert m1 == OnSaved(m);
      if |inputs| == 1 {
        assert Steps(m1, inputs[1..]) == m1;
      } else {
        SavedCountsDown(m1, inputs[1..]);
      }
    }
  }

  /** After the run key saves the settings, SAVED is shown for exactly 15 passes. */
  lemma SavedLasts15(m: Machine, inputs: seq<(bv8, int8)>)
    requires Inv(m) && m.state == Bright && m.cfg.bright < 4
    requires |inputs| <= 15
    ensures var saved := Step(m, START, 0);
      saved.state == Saved &&
      Steps(saved, inputs).state == (if |inputs| == 15 then Bright else Saved)
  {
    BrightKeys(m, START);
    SavedCountsDown(Step(m, START, 0), inputs);
  }

  /** RUN_AUTO with time left, or RUN_MANUAL, shows the run screen and stays. */
  lemma ExposingStays(m: Machine, buttons: bv8, diff: int8)
    requires Inv(m) && (m.state == RunManual || (m.state == RunAuto && m.clk.dir != STOPPED))
    ensures Dispatched(m, buttons, diff) == m.(disp := RunScreen(m)) && Hops(m, buttons, diff) == 1
  {
    Redispatch(m, buttons, diff);
    assert OnCase(m, buttons, diff) == OnRun(m);
  }

  /** RUN_PRIME: with an MLU time the mirror goes up and the pass ends, else the exposure starts at once. */
  lemma PrimeDispatch(m: Machine, buttons: bv8, diff: int8)
    requires Inv(m) && m.state == RunPrime
    ensures var d := Dispatched(m, buttons, diff);
      d.cfg == m.cfg && d.remaining == m.remaining && d.cmode == m.cmode && d.prevstate == m.prevstate && d.shutter &&
      (m.cfg.mlu > 0 ==> d.state == MluPrime && d.clk == m.clk && Hops(m, buttons, diff) == 1) &&
      (m.cfg.mlu == 0 ==> d.clk == InitRun(m).clk && d.state == InitRun(m).state && Hops(m, buttons, diff) == 2)
  {
    Redispatch(m, buttons, diff);
    assert OnCase(m, buttons, diff) == OnRunPrime(m);
    if m.cfg.mlu == 0 {
      ExposingStays(InitRun(m), buttons, diff);
    }
  }

  /**
   * The run key in a menu screen starts a run that the same press does not
   * cancel: the screen is remembered, the count loaded, and either the
   * mirror is raised (MLU) or the exposure starts with the shutter open,
   * in bulb mode exactly when the exposure time is 0:00.
   */
  lemma StartRuns(m: Machine, buttons: bv8, diff: int8)
    requires Inv(m) && Quiet(m) && Browsing(m.state) && buttons & (START | ENC) != 0
    ensures var r := Step(m, buttons, diff);
      r.prevstate == m.state && r.remaining == m.cfg.count && r.cmode == 0 && r.shutter && r.cfg == m.cfg &&
      (m.cfg.mlu > 0 ==> r.state == MluPrime && !r.clk.enabled) &&
      (m.cfg.mlu == 0 ==>
        r.clk.enabled && r.clk.min == m.cfg.timeMin && r.clk.sec == m.cfg.timeSec &&
        (r.state == RunManual <==> m.cfg.timeMin == 0 && m.cfg.timeSec == 0) &&
        (r.state != RunManual ==> r.state == RunAuto && r.clk.dir == DOWN))
  {
    var p := StartRun(m, true);
    assert p.state == RunPrime && !p.clk.enabled;
    PrimeDispatch(p, 0, diff);
  }

  /** Dispatching a run state ends in a run state, or in the remembered screen with everything stopped. */
  lemma {:induction false} DispatchedRun(m: Machine, buttons: bv8, diff: int8)
    requires Inv(m) && Running(m.state)
    ensures var r := Dispatched(m, buttons, diff);
      r.prevstate == m.prevstate && r.cfg == m.cfg &&
      (Running(r.state) || (r.state == m.prevstate && !r.shutter && !r.clk.enabled)) &&
      (r.state == RunManual && m.state != RunManual ==> r.clk.min == m.cfg.timeMin && r.clk.sec == m.cfg.timeSec) &&
      (m.state == RunManual ==> r.clk == m.clk && r.state == RunManual)
    decreases Rank(m)
  {
    Redispatch(m, buttons, diff);
    var c := OnCase(m, buttons, diff);
    assert c == OnRunCase(m);
    if c.1 {
      DispatchedRun(c.0, buttons, diff);
    }
  }

  /**
   * The run key in a run state cancels: back to the remembered screen with
   * the shutter closed and the clock stopped; a bulb exposure keeps its
   * counted time as the new exposure time, any other run leaves the
   * settings alone.
   */
  lemma CancelReturns(m: Machine, buttons: bv8, diff: int8)
    requires Inv(m) && Running(m.state) && buttons & (START | ENC) != 0
    ensures var r := Step(m, buttons, diff);
      r.state == m.prevstate && Browsing(r.state) && !r.shutter && !r.clk.enabled &&
      (m.state == RunManual ==> r.cfg == m.cfg.(timeMin := m.clk.min, timeSec := m.clk.sec)) &&
      (m.state != RunManual ==> r.cfg == m.cfg)
  {
    StepElsewhere(m, buttons, diff);
    DispatchedRun(m, buttons, diff);
  }

  /**
   * SELECT during a run that goes on switches between time left and
   * exposures left, and only when more than one exposure was asked for.
   */
  lemma ToggleNeedsCount(m: Machine, buttons: bv8, diff: int8)
    requires Inv(m) && (m.state == RunManual || ((m.state == RunAuto || m.state == Wait) && m.clk.dir != STOPPED))
    requires buttons & (START | ENC) == 0 && buttons & SELECT != 0
    ensures var r := Step(m, buttons, diff);
      r.state == m.state && r.cmode == (if m.cfg.count > 1 then 1 - m.cmode else m.cmode)
  {
    var c := OnRunCase(m);
    assert !c.1 && c.0.state == m.state && c.0.cmode == m.cmode;
    assert OnCase(m, buttons, diff) == c;
    Redispatch(m, buttons, diff);
    StepElsewhere(m, buttons, diff);
  }

  /**
   * An exposure that has run out closes the shutter; the last one returns to
   * the remembered screen, any other (and every one with a count of 0)
   * loads the delay and waits.
   */
  lemma ExposureEnds(m: Machine, diff: int8)
    requires Inv(m) && m.state == RunAuto && m.clk.dir == STOPPED
    ensures var r := Step(m, 0, diff);
      !r.shutter && r.cfg == m.cfg &&
      (m.remaining == 1 ==> r.state == m.prevstate && r.remaining == 0 && !r.clk.enabled) &&
      (m.remaining != 1 ==>
        r.state == Wait && r.remaining == (if m.remaining == 0 then 0 else m.remaining - 1) &&
        r.clk == Counter(m.cfg.delayMin, m.cfg.delaySec, DOWN, true, 0))
  {
    StepElsewhere(m, 0, diff);
    Redispatch(m, 0, diff);
    var e := ExposureDone(m);
    assert OnCase(m, 0, diff) == e;
    if e.1 {
      Redispatch(e.0, 0, diff);
      assert OnCase(e.0, 0, diff) == OnWait(e.0);
    }
  }

  /**
   * A delay that has run out primes the next exposure in the same pass: the
   * mirror goes up first if there is an MLU time, otherwise the shutter opens
   * at once; three executions of the switch are needed then, the most any
   * pass takes.
   */
  lemma WaitRestarts(m: Machine, diff: int8)
    requires Inv(m) && m.state == Wait && m.clk.dir == STOPPED
    ensures var r := Step(m, 0, diff);
      r.remaining == m.remaining && r.cfg == m.cfg && r.shutter &&
      (m.cfg.mlu > 0 ==> r.state == MluPrime && !r.clk.enabled && Hops(m, 0, diff) == 2) &&
      (m.cfg.mlu == 0 ==>
        r.clk.enabled && r.clk.min == m.cfg.timeMin && r.clk.sec == m.cfg.timeSec &&
        (r.state == RunAuto || r.state == RunManual) && Hops(m, 0, diff) == 3)
  {
    StepElsewhere(m, 0, diff);
    Redispatch(m, 0, diff);
    var w := OnWait(m).0;
    assert OnCase(m, 0, diff) == (w, true);
    PrimeDispatch(w, 0, diff);
  }

  /**
   * Mirror lock-up: MLU_PRIME releases the shutter line and counts the MLU
   * seconds down; when they have run out the exposure starts.
   */
  lemma MirrorLockUp(m: Machine, diff: int8)
    requires Inv(m) && (m.state == MluPrime || (m.state == MluWait && m.clk.dir == STOPPED))
    ensures var r := Step(m, 0, diff);
      r.cfg == m.cfg && r.remaining == m.remaining &&
      (m.state == MluPrime ==>
        r.state == MluWait && !r.shutter && r.clk == Counter(0, m.cfg.mlu, DOWN, true, 0)) &&
      (m.state == MluWait ==>
        r.shutter && r.clk.enabled && (r.state == RunAuto || r.state == RunManual) &&
        r.clk.min == m.cfg.timeMin && r.clk.sec == m.cfg.timeSec)
  {
    StepElsewhere(m, 0, diff);
    Redispatch(m, 0, diff);
    var c := OnMlu(m);
    assert OnCase(m, 0, diff) == c;
    if c.1 {
      ExposingStays(c.0, 0, diff);
    }
  }

  /** The controller of firmware/main.c with the globals it drives. */
  class Controller {
    var state: State
    var prevstate: State
    var remaining: byte
    var cmode: byte
    /** The shutter output (SHUTTER_ON / SHUTTER_OFF). */
    var shutterOn: bool
    const clock: Rtc
    const screen: Screen
    const store: Settings.Store

    ghost predicate Valid()
      reads this, screen, store
    {
      screen.Valid() && screen.digits == DIGITS && store.eeprom.Length >= 7
    }

    ghost function Abs(): Machine
      reads this, clock, screen, screen.buf, store, store.eeprom
    {
      Machine(state, prevstate, remaining, cmode, store.Cfg(), clock.Value(), shutterOn,
              screen.buf[..], screen.comparator, store.eeprom[..])
    }

    /** main's set-up: Load, display_init, clock_init, and the state machine's initial values. */
    constructor (eeprom: array<byte>)
      requires eeprom.Length >= 7
      ensures Valid() && store.eeprom == eeprom
      ensures var cfg := Settings.Decode(eeprom[..], Settings.DEFAULTS);
        Abs() == Boot(cfg, eeprom[..], Brightness(cfg.bright))
    {
      shutterOn := false;
      var settings := new Settings.Store(eeprom);
      settings.Load(Settings.DEFAULTS);
      Settings.DecodeInRange(eeprom[..], Settings.DEFAULTS);
      store := settings;
      screen := new Screen(DIGITS, settings.bright);
      clock := new Rtc();
      state, prevstate, remaining, cmode := Time, Time, 0, 0;
    }

    /** EditNum, with `f` naming the setting `num` points to. */
    method EditNum(f: Settings.Field, buttons: bv8, diff: int8, max: byte) returns (r: bv8)
      modifies store, clock
      ensures var e := Edit(Settings.Get(old(store.Cfg()), f), buttons, diff, max);
        store.Cfg() == Settings.With(old(store.Cfg()), f, e.0) && (r != 0 <==> e.1)
      ensures clock.Value() == if buttons == 0 && diff == 0 then old(clock.Value()) else old(clock.Value()).(phase := 0)
    {
      if buttons == 0 && diff == 0 {
        return 0;
      }
      clock.ResetBlink();
      var num := Settings.Get(store.Cfg(), f);
      ghost var before := num;
      if buttons & SELECT != 0 {
        if buttons & HOLD != 0 {
          num := 0;
        } else {
          num := Wrap(num + 10);
        }
      }
      assert num == Tapped(before, buttons);
      if buttons & START != 0 {
        num := Wrap(num + 1);
      }
      assert num == Stepped(Tapped(before, buttons), buttons);
      ghost var stepped := num;
      if diff != 0 {
        num := Wrap(num + diff);
        if num > 200 {
          num := 0;
        } else if num >= max {
          num := Wrap(max - 1);
        }
      } else {
        if num >= max {
          num := 0;
        }
      }
      assert num == Limited(stepped, diff, max) == Edit(before, buttons, diff, max).0;
      store.Put(f, num);
      return buttons & (SET | ENC);
    }

    method InitRun()
      requires Valid()
      modifies this, clock
      ensures Valid() && Abs() == Timer.InitRun(old(Abs()))
    {
      clock.gMin := WrapSigned(store.timeMin);
      clock.gSec := WrapSigned(store.timeSec);
      if clock.gMin > 0 || clock.gSec > 0 {
        clock.gDirection := DOWN;
        state := RunAuto;
      } else {
        clock.gDirection := UP;
        state := RunManual;
      }
      shutterOn := true;
      clock.Start();
    }

    /** Two DisplayNum calls around a write of the extra slot. */
    method ShowPair(hi: byte, hiMask: bv8, hiStrip: bv8, hiDp: bv8, extra: bv8, lo: byte, loMask: bv8)
      requires Valid() && hi <= 99 && lo <= 99
      modifies screen.buf
      ensures screen.buf[..] == Pair(old(screen.buf[..]), clock.tcnt2, hi, hiMask, hiStrip, hiDp, extra, lo, loMask)
    {
      screen.DisplayNum(hi, HIGH_POS, clock.tcnt2, hiMask, hiStrip, hiDp);
      screen.SetSlot(EXTRA_POS, extra);
      screen.DisplayNum(lo, LOW_POS, clock.tcnt2, loMask, 0, 0);
    }

    /** The display half of the menu and edit states. */
    method ShowMenu()
      requires Valid() && Inv(Abs()) && (Browsing(state) || Editing(state))
      modifies screen.buf
      ensures screen.buf[..] == MenuScreen(old(Abs()))
    {
      var ph := clock.tcnt2;
      match state
      case Time => ShowPair(store.timeMin, 0, 3, 0, COLON, store.timeSec, 0);
      case Delay => ShowPair(store.delayMin, 0, 3, 1, EMPTY, store.delaySec, 0);
      case Count => screen.DisplayAlnum(LETTER_C, store.count, ph, 0, 0);
      case Mlu => screen.DisplayAlnum(LETTER_L, store.mlu, ph, 0, 0);
      case TimeSetMins => ShowPair(store.timeMin, FIELD_BLINK, 0, 0, COLON, store.timeSec, 0);
      case TimeSetSecs => ShowPair(store.timeMin, 0, 0, 0, COLON, store.timeSec, FIELD_BLINK);
      case DelaySetMins => ShowPair(store.delayMin, FIELD_BLINK, 0, 1, EMPTY, store.delaySec, 0);
      case DelaySetSecs => ShowPair(store.delayMin, 0, 0, 1, EMPTY, store.delaySec, FIELD_BLINK);
      case CountSet => screen.DisplayAlnum(LETTER_C, store.count, ph, FIELD_BLINK, 0);
      case MluSet => screen.DisplayAlnum(LETTER_L, store.mlu, ph, FIELD_BLINK, 0);
    }

    /** ST_TIME, ST_DELAY, ST_COUNT, ST_MLU. */
    method Browse(buttons: bv8)
      requires Valid() && Inv(Abs()) && Browsing(state)
      modifies this, screen.buf
      ensures Valid() && Abs() == OnBrowse(old(Abs()), buttons)
    {
      ShowMenu();
      if buttons & SELECT != 0 {
        state := Next(state);
      } else if buttons & SET != 0 {
        state := EditOf(state);
      }
    }

    /** The six edit states. */
    method EditSetting(buttons: bv8, diff: int8)
      requires Valid() && Inv(Abs()) && Editing(state)
      modifies this, screen.buf, store, clock
      ensures Valid() && Abs() == OnEdit(old(Abs()), buttons, diff)
    {
      ShowMenu();
      var r := EditNum(FieldOf(state), buttons, diff, Limit(state));
      if r != 0 {
        state := Committed(state);
      }
    }

    /** The brightness key: steps the level down by one, from 0 round to 3, and hands the new level to the display driver. */
    method DimDisplay()
      requires Valid() && Inv(Abs())
      modifies screen, store
      ensures Valid() && Abs() == Dim(old(Abs()))
    {
      store.bright := Dimmer(store.bright);
      screen.SetBrightness(store.bright);
    }

    /** Save, and show SAVED for 15 passes. */
    method SaveAll()
      requires Valid() && Inv(Abs())
      modifies this, store.eeprom
      ensures Valid() && Abs() == SaveSettings(old(Abs()))
    {
      store.Save();
      state := Saved;
      remaining := 15;
    }

    /** ST_BRIGHT. */
    method AdjustBright(buttons: bv8, diff: int8)
      requires Valid() && Inv(Abs()) && state == Bright
      modifies this, screen, screen.buf, store, store.eeprom
      ensures Valid() && Abs() == OnBright(old(Abs()), buttons, diff)
    {
      screen.DisplayAlnum(LETTER_B, 4 - store.bright, clock.tcnt2, 0, 0);
      BrightKeys(buttons, diff);
    }

    /** The keys of ST_BRIGHT. */
    method BrightKeys(buttons: bv8, diff: int8)
      requires Valid() && Inv(Abs()) && state == Bright
      modifies this, screen, store, store.eeprom
      ensures Valid() && Abs() == OnBrightKeys(old(Abs()), buttons, diff)
    {
      if buttons & SELECT != 0 {
        state := Time;
      } else if diff != 0 {
        store.bright := (store.bright - diff) % 4;
      } else if buttons & SET != 0 {
        DimDisplay();
      } else if buttons & (START | ENC) != 0 {
        SaveAll();
      }
    }

    /** ST_SAVED. */
    method ShowSaved()
      requires Valid() && Inv(Abs()) && state == Saved
      modifies this, screen.buf
      ensures Valid() && Abs() == OnSaved(old(Abs()))
    {
      screen.SetSlot(0, LETTER_S);
      screen.SetSlot(1, LETTER_A);
      screen.SetSlot(2, LETTER_V);
      screen.SetSlot(3, LETTER_E);
      screen.SetSlot(4, EMPTY);
      remaining := remaining - 1;
      if remaining == 0 {
        state := Bright;
      }
    }

    /** ST_RUN_PRIME. */
    method Prime() returns (again: bool)
      requires Valid() && Inv(Abs()) && state == RunPrime
      modifies this, clock, screen.buf
      ensures Valid() && (Abs(), again) == OnRunPrime(old(Abs()))
    {
      if store.mlu > 0 {
        state := MluPrime;
        shutterOn := true;
        screen.DisplayAlnum(LETTER_L, store.mlu, clock.tcnt2, 0, 0);
        again := false;
      } else {
        InitRun();
        again := true;
      }
    }

    /** The display half of ST_RUN_AUTO and ST_RUN_MANUAL. */
    method ShowRun()
      requires Valid() && Inv(Abs())
      modifies screen.buf
      ensures screen.buf[..] == RunScreen(old(Abs()))
    {
      var ph := clock.tcnt2;
      if cmode == 0 {
        screen.DisplayNum(Wrap(clock.gMin), HIGH_POS, ph, 0, 3, 0);
        screen.DisplayNum(Wrap(clock.gSec), LOW_POS, ph, 0, 0, 1);
      } else {
        screen.DisplayAlnum(LETTER_C, remaining, ph, 0, 1);
      }
      screen.SetSlot(EXTRA_POS, if ph & SECOND_HALF != 0 then EMPTY else COLON);
    }

    /** ST_RUN_AUTO once the clock has stopped. */
    method EndExposure() returns (again: bool)
      requires Valid() && Inv(Abs()) && state == RunAuto
      modifies this, clock
      ensures Valid() && (Abs(), again) == ExposureDone(old(Abs()))
    {
      CloseShutter();
      if remaining == 1 {
        remaining := 0;
        state := prevstate;
        again := false;
      } else {
        if remaining > 0 {
          remaining := remaining - 1;
        }
        LoadDelay();
        again := true;
      }
    }

    /** SHUTTER_OFF and clock_stop. */
    method CloseShutter()
      modifies this, clock
      ensures Abs() == old(Abs()).(shutter := false, clk := old(Abs()).clk.(enabled := false))
    {
      shutterOn := false;
      clock.Stop();
    }

    /** Loads the stored delay into the clock, makes it count down, enters the wait state and starts the clock. */
    method LoadDelay()
      modifies this, clock
      ensures state == Wait && clock.Value() == Counter(WrapSigned(store.delayMin), WrapSigned(store.delaySec), DOWN, true, 0)
      ensures prevstate == old(prevstate) && remaining == old(remaining) && cmode == old(cmode) && shutterOn == old(shutterOn)
    {
      clock.gMin := WrapSigned(store.delayMin);
      clock.gSec := WrapSigned(store.delaySec);
      clock.gDirection := DOWN;
      state := Wait;
      clock.Start();
    }

    /** ST_RUN_AUTO (falling through to) ST_RUN_MANUAL. */
    method Expose() returns (again: bool)
      requires Valid() && Inv(Abs()) && (state == RunAuto || state == RunManual)
      modifies this, clock, screen.buf
      ensures Valid() && (Abs(), again) == OnRun(old(Abs()))
    {
      if state == RunAuto && clock.gDirection == STOPPED {
        again := EndExposure();
        return;
      }
      ShowRun();
      return false;
    }

    /** ST_MLU_PRIME (falling through to) ST_MLU_WAIT. */
    method LockMirror() returns (again: bool)
      requires Valid() && Inv(Abs()) && (state == MluPrime || state == MluWait)
      modifies this, clock, screen.buf
      ensures Valid() && (Abs(), again) == OnMlu(old(Abs()))
    {
      if state == MluPrime {
        shutterOn := false;
        clock.gMin := 0;
        clock.gSec := WrapSigned(store.mlu);
        clock.gDirection := DOWN;
        state := MluWait;
        clock.Start();
      }
      screen.DisplayAlnum(LETTER_L, Wrap(clock.gSec), clock.tcnt2, 0, 0);
      if clock.gDirection == STOPPED {
        clock.Stop();
        InitRun();
        return true;
      }
      return false;
    }

    /** The display half of ST_WAIT. */
    method ShowWait()
      requires Valid() && Inv(Abs())
      modifies screen.buf
      ensures screen.buf[..] == WaitScreen(old(Abs()))
    {
      var ph := clock.tcnt2;
      var blink := ph & SECOND_HALF != 0;
      if cmode == 0 {
        screen.DisplayNum(Wrap(clock.gMin), HIGH_POS, ph, 0, 3, if blink then 0 else 1);
        screen.DisplayNum(Wrap(clock.gSec), LOW_POS, ph, 0, 0, 0);
      } else {
        screen.DisplayAlnum(LETTER_C, remaining, ph, 0, if blink then 0 else 4);
      }
      screen.SetSlot(EXTRA_POS, EMPTY);
    }

    /** ST_WAIT. */
    method Pause() returns (again: bool)
      requires Valid() && Inv(Abs()) && state == Wait
      modifies this, clock, screen.buf
      ensures Valid() && (Abs(), again) == OnWait(old(Abs()))
    {
      ShowWait();
      if clock.gDirection == STOPPED {
        clock.Stop();
        state := RunPrime;
        return true;
      }
      return false;
    }

    /** One execution of the switch. */
    method Switch(buttons: bv8, diff: int8) returns (again: bool)
      requires Valid() && Inv(Abs())
      modifies this, clock, screen, screen.buf, store, store.eeprom
      ensures Valid() && (Abs(), again) == OnCase(old(Abs()), buttons, diff)
    {
      if Running(state) {
        again := SwitchRun();
      } else {
        SwitchSettings(buttons, diff);
        again := false;
      }
    }

    /** The cases of the switch before ST_RUN_PRIME: menu, options and edit states. */
    method SwitchSettings(buttons: bv8, diff: int8)
      requires Valid() && Inv(Abs()) && !Running(state)
      modifies this, clock, screen, screen.buf, store, store.eeprom
      ensures Valid() && (Abs(), false) == OnCase(old(Abs()), buttons, diff)
    {
      match state
      case Time => Browse(buttons);
      case Delay => Browse(buttons);
      case Count => Browse(buttons);
      case Mlu => Browse(buttons);
      case Bright => AdjustBright(buttons, diff);
      case Saved => ShowSaved();
      case TimeSetMins => EditSetting(buttons, diff);
      case TimeSetSecs => EditSetting(buttons, diff);
      case DelaySetMins => EditSetting(buttons, diff);
      case DelaySetSecs => EditSetting(buttons, diff);
      case CountSet => EditSetting(buttons, diff);
      case MluSet => EditSetting(buttons, diff);
    }

    /** The cases of the switch from ST_RUN_PRIME on: the run states. */
    method SwitchRun() returns (again: bool)
      requires Valid() && Inv(Abs()) && Running(state)
      modifies this, clock, screen.buf
      ensures Valid() && (Abs(), again) == OnCase(old(Abs()), 0, 0)
      ensures forall buttons, diff :: OnCase(old(Abs()), buttons, diff) == OnCase(old(Abs()), 0, 0)
    {
      match state
      case RunPrime => again := Prime();
      case RunManual => again := Expose();
      case MluPrime => again := LockMirror();
      case MluWait => again := LockMirror();
      case RunAuto => again := Expose();
      case Wait => again := Pause();
    }

    /** The switch, repeated while a case jumps back to `newstate`. */
    method Dispatch(buttons: bv8, diff: int8)
      requires Valid() && Inv(Abs())
      modifies this, clock, screen, screen.buf, store, store.eeprom
      ensures Valid() && Abs() == Dispatched(old(Abs()), buttons, diff)
    {
      var again := true;
      while again
        invariant Valid() && Inv(Abs())
        invariant again ==> Dispatched(Abs(), buttons, diff) == Dispatched(old(Abs()), buttons, diff)
        invariant !again ==> Abs() == Dispatched(old(Abs()), buttons, diff)
        decreases again, Rank(Abs())
      {
        ghost var before := Abs();
        again := Switch(buttons, diff);
        assert Dispatched(before, buttons, diff) ==
          if again then Dispatched(Abs(), buttons, diff) else Abs();
      }
    }

    /** The run key during a run: stop, keep a bulb exposure's time, and go back. */
    method CancelRun()
      requires Valid() && Inv(Abs()) && Running(state)
      modifies this, clock, store
      ensures Valid() && Abs() == Cancel(old(Abs()))
    {
      clock.Stop();
      shutterOn := false;
      if state == RunManual {
        store.timeMin := Wrap(clock.gMin);
        store.timeSec := Wrap(clock.gSec);
      }
      state := prevstate;
    }

    /** The key handling after the switch. */
    method CheckKeys(buttons: bv8)
      requires Valid() && Inv(Abs())
      modifies this, clock, screen, store
      ensures Valid()
      ensures Abs() == RunKeys(old(Abs()), buttons & (START | ENC) != 0, buttons & SELECT != 0, buttons & SET != 0)
    {
      if Running(state) {
        if buttons & (START | ENC) != 0 {
          CancelRun();
        } else if buttons & SELECT != 0 && store.count > 1 {
          cmode := (cmode + 1) % 2;
        } else if buttons & SET != 0 {
          DimDisplay();
        }
      }
    }

    /** One pass of the `for(;;)` loop, with input_poll's result as parameters. */
    method Cycle(buttons: bv8, diff: int8)
      requires Valid() && Inv(Abs())
      modifies this, clock, screen, screen.buf, store, store.eeprom
      ensures Valid() && Abs() == Step(old(Abs()), buttons, diff)
    {
      var keys := buttons;
      if keys & (START | ENC) != 0 && Browsing(state) {
        prevstate := state;
        remaining := store.count;
        cmode := 0;
        keys := 0;
        state := RunPrime;
      }
      Dispatch(keys, diff);
      CheckKeys(keys);
    }

    /** The overflow interrupt, run between passes of the loop when enabled. */
    method Interrupt()
      requires Valid() && Inv(Abs())
      modifies clock
      ensures Valid() && Abs() == Elapse(old(Abs()))
    {
      if clock.enabled {
        clock.Tick();
      }
    }
  }
}
