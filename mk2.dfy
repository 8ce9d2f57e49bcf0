/**
 * The Mk II controller (MkII.c): EditNum without an encoder, the button
 * reader called from the loop, and one pass of the main loop, with MkII.c's
 * three keys and its screen layout (minutes in slots 0-1, slot 2 the colon
 * or point, seconds in slots 3-4).
 */
module MkII {
  import opened Bytes
  import opened Clock
  import Settings
  import opened Display
  import opened Timer
  import Input

  /** Key bits of MkII.c, as GetButtons reports them. */
  const BUTTON_UP: bv8 := 0x01
  const BUTTON_RIGHT: bv8 := 0x02
  const BUTTON_LEFT: bv8 := 0x04
  const BUTTON_HOLD: bv8 := 0x10

  /** Screen layout and patterns of MkII.c. */
  const HIGH_POS: nat := 0
  const LOW_POS: nat := 3
  const COLON_POS: nat := 2
  const COLON: bv8 := 0xFC
  const LOWDOT: bv8 := 0xFD
  const LETTER_C: bv8 := 0xC6
  const LETTER_L: bv8 := 0xC7
  const LETTER_B: bv8 := 0x83
  const LETTER_S: bv8 := 0x92
  const LETTER_A: bv8 := 0x88
  const LETTER_V: bv8 := 0xC1
  const LETTER_E: bv8 := 0x86

  /** `TCNT2 & 0x80`: the half-second in which the colon or point blinks off. */
  const SECOND_HALF: bv8 := 0x80
  /** The blink mask of the field being edited. */
  const FIELD_BLINK: bv8 := 0x40

  /**
   * EditNum on the value `num`: the new value, and whether the edit is
   * committed. LEFT adds 10 (or clears on a hold), RIGHT adds 1, and a
   * value that reaches max starts again at 0.
   */
  function Edit(num: byte, buttons: bv8, max: byte): (r: (byte, bool))
    // no key: nothing changes and nothing is committed
    ensures buttons == 0 ==> r == (num, false)
    // committed exactly by UP
    ensures r.1 <==> buttons & BUTTON_UP != 0
    // after any key the value is below max, and a value below max stays below it
    ensures (buttons != 0 || num < max) && max >= 1 ==> r.0 < max
  {
    if buttons == 0 then (num, false)
    else
      var stepped := Stepped(Tapped(num, buttons), buttons);
      (if stepped >= max then 0 else stepped, buttons & BUTTON_UP != 0)
  }

  /** The LEFT key: ten more, or 0 when held. */
  function Tapped(num: byte, buttons: bv8): byte
  {
    if buttons & BUTTON_LEFT == 0 then num
    else if buttons & BUTTON_HOLD != 0 then 0
    else Wrap(num + 10)
  }

  /** The RIGHT key: one more. */
  function Stepped(num: byte, buttons: bv8): byte
  {
    if buttons & BUTTON_RIGHT != 0 then Wrap(num + 1) else num
  }

  /**
   * On a value below a limit of at most 100 the arithmetic never wraps
   * around the byte: the value moves by 10 for LEFT (or restarts at 0 on a
   * LEFT hold) and by 1 for RIGHT, and becomes 0 when it reaches the limit.
   */
  lemma ButtonsWrap(num: byte, buttons: bv8, max: byte)
    requires buttons != 0 && num < max <= 100
    ensures var base := if buttons & BUTTON_LEFT == 0 then num else if buttons & BUTTON_HOLD != 0 then 0 else num + 10;
      var target := base + (if buttons & BUTTON_RIGHT != 0 then 1 else 0);
      Edit(num, buttons, max).0 == (if target < max then target else 0)
  {
  }

  /** The value after n identical key events. */
  function Presses(num: byte, buttons: bv8, max: byte, n: nat): byte
    decreases n
  {
    if n == 0 then num else Presses(Edit(num, buttons, max).0, buttons, max, n - 1)
  }

  /** n events and then k more are n + k events. */
  lemma {:induction false} PressesCompose(num: byte, buttons: bv8, max: byte, n: nat, k: nat)
    ensures Presses(num, buttons, max, n + k) == Presses(Presses(num, buttons, max, n), buttons, max, k)
    decreases n
  {
    if n > 0 {
      PressesCompose(Edit(num, buttons, max).0, buttons, max, n - 1, k);
    }
  }

  /** RIGHT taps count up one at a time while the value stays below the limit. */
  lemma {:induction false} RightCounts(num: byte, max: byte, k: nat)
    requires num + k < max
    ensures Presses(num, BUTTON_RIGHT, max, k) == num + k
    decreases k
  {
    if k > 0 {
      assert Edit(num, BUTTON_RIGHT, max).0 == num + 1;
      RightCounts(num + 1, max, k - 1);
    }
  }

  /**
   * RIGHT taps run through every value below the limit: from max-1 the
   * next tap gives 0, so max taps bring any value back to itself.
   */
  lemma RightCycles(num: byte, max: byte)
    requires num < max
    ensures Edit(max - 1, BUTTON_RIGHT, max).0 == 0
    ensures Presses(num, BUTTON_RIGHT, max, max) == num
  {
    var up := max - 1 - num;
    RightCounts(num, max, up);
    assert Presses(max - 1, BUTTON_RIGHT, max, 1) == 0 by {
      assert Edit(max - 1, BUTTON_RIGHT, max).0 == 0;
    }
    RightCounts(0, max, num);
    PressesCompose(num, BUTTON_RIGHT, max, up, 1);
    PressesCompose(num, BUTTON_RIGHT, max, up + 1, num);
  }

  /**
   * Holding LEFT alone (sample 3: UP and RIGHT released) until GetButtons
   * reports the hold clears the field being edited without committing it.
   */
  lemma HeldLeftClears(k: Input.Keys, num: byte, max: byte)
    requires max >= 1 && Input.Poll(k, 3).events & Input.HOLD != 0
    ensures Edit(num, Input.Poll(k, 3).events, max) == (0, false)
  {
    Input.EventShapes(k, 3);
  }

  /** The two-number screens: hi in slots 0-1, the mark in slot 2, lo in slots 3-4. */
  function Pair(d: seq<bv8>, phase: bv8, hi: byte, hiMask: bv8, hiStrip: bv8, mark: bv8,
                lo: byte, loMask: bv8): (r: seq<bv8>)
    requires |d| == 5 && hi <= 99 && lo <= 99
    ensures |r| == 5 && r[COLON_POS] == mark
    ensures (r[0], r[1]) == NumSlots(DIGITS_MK2, hi, phase, hiMask, hiStrip, 0)
    ensures (r[3], r[4]) == NumSlots(DIGITS_MK2, lo, phase, loMask, 0, 0)
  {
    var shown := WriteNum(d, DIGITS_MK2, hi, HIGH_POS, phase, hiMask, hiStrip, 0);
    WriteNum(shown[COLON_POS := mark], DIGITS_MK2, lo, LOW_POS, phase, loMask, 0, 0)
  }

  /**
   * The screen of a menu or edit state: minutes:seconds for time and delay
   * (the time marked by the colon, the delay by the low point), a letter
   * and the number for count and MLU; in an edit state the field being
   * edited blinks and no leading zero is stripped.
   */
  function MenuScreen(m: Machine): (d: seq<bv8>)
    requires Inv(m) && (Browsing(m.state) || Editing(m.state))
    ensures |d| == 5
    // exposure time: minutes (leading zero stripped on the menu), colon, seconds
    ensures m.state in {Time, TimeSetMins, TimeSetSecs} ==>
      d[COLON_POS] == COLON &&
      (d[0], d[1]) == NumSlots(DIGITS_MK2, m.cfg.timeMin, m.clk.phase, if m.state == TimeSetMins then FIELD_BLINK else 0, if m.state == Time then 3 else 0, 0) &&
      (d[3], d[4]) == NumSlots(DIGITS_MK2, m.cfg.timeSec, m.clk.phase, if m.state == TimeSetSecs then FIELD_BLINK else 0, 0, 0)
    // delay: the same with the low point in place of the colon
    ensures m.state in {Delay, DelaySetMins, DelaySetSecs} ==>
      d[COLON_POS] == LOWDOT &&
      (d[0], d[1]) == NumSlots(DIGITS_MK2, m.cfg.delayMin, m.clk.phase, if m.state == DelaySetMins then FIELD_BLINK else 0, if m.state == Delay then 3 else 0, 0) &&
      (d[3], d[4]) == NumSlots(DIGITS_MK2, m.cfg.delaySec, m.clk.phase, if m.state == DelaySetSecs then FIELD_BLINK else 0, 0, 0)
    // count and MLU: the letter, two blanks, the number
    ensures m.state in {Count, CountSet} ==>
      d[0] == LETTER_C && d[1] == EMPTY && d[2] == EMPTY &&
      (d[3], d[4]) == (if m.state == Count then NumSlots(DIGITS_MK2, m.cfg.count, m.clk.phase, 0, 1, 0)
                       else NumSlots(DIGITS_MK2, m.cfg.count, m.clk.phase, FIELD_BLINK, 0, 0))
    ensures m.state in {Mlu, MluSet} ==>
      d[0] == LETTER_L && d[1] == EMPTY && d[2] == EMPTY &&
      (d[3], d[4]) == (if m.state == Mlu then NumSlots(DIGITS_MK2, m.cfg.mlu, m.clk.phase, 0, 1, 0)
                       else NumSlots(DIGITS_MK2, m.cfg.mlu, m.clk.phase, FIELD_BLINK, 0, 0))
  {
    AlnumMk2WritesEverySlot(m.disp, m.disp, DIGITS_MK2, LETTER_C, m.cfg.count, m.clk.phase, if m.state == CountSet then FIELD_BLINK else 0);
    AlnumMk2WritesEverySlot(m.disp, m.disp, DIGITS_MK2, LETTER_L, m.cfg.mlu, m.clk.phase, if m.state == MluSet then FIELD_BLINK else 0);
    var c := m.cfg;
    var ph := m.clk.phase;
    match m.state
    case Time => Pair(m.disp, ph, c.timeMin, 0, 3, COLON, c.timeSec, 0)
    case Delay => Pair(m.disp, ph, c.delayMin, 0, 3, LOWDOT, c.delaySec, 0)
    case Count => WriteAlnumMk2(m.disp, DIGITS_MK2, LETTER_C, c.count, ph, 0)
    case Mlu => WriteAlnumMk2(m.disp, DIGITS_MK2, LETTER_L, c.mlu, ph, 0)
    case TimeSetMins => Pair(m.disp, ph, c.timeMin, FIELD_BLINK, 0, COLON, c.timeSec, 0)
    case TimeSetSecs => Pair(m.disp, ph, c.timeMin, 0, 0, COLON, c.timeSec, FIELD_BLINK)
    case DelaySetMins => Pair(m.disp, ph, c.delayMin, FIELD_BLINK, 0, LOWDOT, c.delaySec, 0)
    case DelaySetSecs => Pair(m.disp, ph, c.delayMin, 0, 0, LOWDOT, c.delaySec, FIELD_BLINK)
    case CountSet => WriteAlnumMk2(m.disp, DIGITS_MK2, LETTER_C, c.count, ph, FIELD_BLINK)
    case MluSet => WriteAlnumMk2(m.disp, DIGITS_MK2, LETTER_L, c.mlu, ph, FIELD_BLINK)
  }

  /** The slot of the first digit of the number an edit state changes. */
  function EditPos(s: State): (p: nat)
    requires Editing(s)
    ensures p == HIGH_POS || p == LOW_POS
  {
    if s == TimeSetMins || s == DelaySetMins then HIGH_POS else LOW_POS
  }

  /**
   * An edit screen blinks exactly the number being edited: its two slots
   * are blank exactly in the blink half of TCNT2 (bit 6), and the other
   * number of a minutes:seconds pair stays lit throughout.
   */
  lemma EditBlinksField(m: Machine)
    requires Inv(m) && Editing(m.state)
    ensures var d := MenuScreen(m);
      var p := EditPos(m.state);
      (d[p] == EMPTY && d[p + 1] == EMPTY <==> Blinking(m.clk.phase, FIELD_BLINK)) &&
      (m.state !in {CountSet, MluSet} ==> d[LOW_POS - p] != EMPTY && d[LOW_POS - p + 1] != EMPTY)
  {
    TablesAreGlyphTables();
  }

  /**
   * The screen of the exposure and wait states: the clock (or the exposures
   * left) and a mark in slot 2 that blinks, the colon while exposing and
   * the low point while waiting.
   */
  function RunScreen(m: Machine, mark: bv8): (d: seq<bv8>)
    requires Inv(m)
    ensures |d| == 5 && d[COLON_POS] == (if m.clk.phase & SECOND_HALF != 0 then EMPTY else mark)
    // time left: gMin (leading zero stripped) and gSec
    ensures m.cmode == 0 ==>
      (d[0], d[1]) == NumSlots(DIGITS_MK2, Wrap(m.clk.min), m.clk.phase, 0, 3, 0) &&
      (d[3], d[4]) == NumSlots(DIGITS_MK2, Wrap(m.clk.sec), m.clk.phase, 0, 0, 0)
    // exposures left: C and the count
    ensures m.cmode != 0 ==>
      d[0] == LETTER_C && d[1] == EMPTY &&
      (d[3], d[4]) == NumSlots(DIGITS_MK2, m.remaining, m.clk.phase, 0, 1, 0)
  {
    AlnumMk2WritesEverySlot(m.disp, m.disp, DIGITS_MK2, LETTER_C, m.remaining, m.clk.phase, 0);
    var ph := m.clk.phase;
    var shown :=
      if m.cmode == 0 then
        WriteNum(WriteNum(m.disp, DIGITS_MK2, Wrap(m.clk.min), HIGH_POS, ph, 0, 3, 0),
                 DIGITS_MK2, Wrap(m.clk.sec), LOW_POS, ph, 0, 0, 0)
      else
        WriteAlnumMk2(m.disp, DIGITS_MK2, LETTER_C, m.remaining, ph, 0);
    shown[COLON_POS := if ph & SECOND_HALF != 0 then EMPTY else mark]
  }

  /** The screen of ST_SAVED. */
  function SavedScreen(d: seq<bv8>): (r: seq<bv8>)
    requires |d| == 5
    ensures r == [LETTER_S, LETTER_A, EMPTY, LETTER_V, LETTER_E]
  {
    d[0 := LETTER_S][1 := LETTER_A][2 := EMPTY][3 := LETTER_V][4 := LETTER_E]
  }

  /** The menu screens: ST_TIME, ST_DELAY, ST_COUNT, ST_MLU. */
  function OnBrowse(m: Machine, buttons: bv8): (r: Machine)
    requires Inv(m) && Browsing(m.state)
    ensures Inv(r) && r == m.(disp := MenuScreen(m), state := r.state)
    ensures r.state == (if buttons & BUTTON_LEFT != 0 then Next(m.state) else if buttons & BUTTON_UP != 0 then EditOf(m.state) else m.state)
  {
    Browse(m.(disp := MenuScreen(m)), buttons & BUTTON_LEFT != 0, buttons & BUTTON_UP != 0)
  }

  /** The screen of ST_BRIGHT: `b` and the level, 1 (dimmest) to 4 (brightest). */
  function LevelScreen(m: Machine): (d: seq<bv8>)
    requires Inv(m)
    ensures |d| == 5 && d[0] == LETTER_B
    // b, three blanks, and the single digit of the level 4 - bright
    ensures d == [LETTER_B, EMPTY, EMPTY, EMPTY, DIGITS_MK2[4 - m.cfg.bright]]
  {
    AlnumMk2WritesEverySlot(m.disp, m.disp, DIGITS_MK2, LETTER_B, 4 - m.cfg.bright, m.clk.phase, 0);
    WriteAlnumMk2(m.disp, DIGITS_MK2, LETTER_B, 4 - m.cfg.bright, m.clk.phase, 0)
  }

  /** ST_BRIGHT: the level shown, then the keys. */
  function OnBright(m: Machine, buttons: bv8): (r: Machine)
    requires Inv(m) && m.state == Bright
    ensures Inv(r) && r.state in {Time, Bright, Saved}
    ensures r.shutter == m.shutter && r.clk == m.clk && r.prevstate == m.prevstate
  {
    OnBrightKeys(m.(disp := LevelScreen(m)), buttons)
  }

  /** The keys of ST_BRIGHT: LEFT back to the time screen; else UP dims; else RIGHT saves. */
  function OnBrightKeys(m: Machine, buttons: bv8): (r: Machine)
    requires Inv(m) && m.state == Bright
    ensures Inv(r) && r.shutter == m.shutter && r.clk == m.clk && r.prevstate == m.prevstate
    ensures buttons & BUTTON_LEFT != 0 ==> r == m.(state := Time)
    ensures buttons & BUTTON_LEFT == 0 && buttons & BUTTON_UP != 0 ==> r == Dim(m)
    ensures buttons & (BUTTON_LEFT | BUTTON_UP) == 0 && buttons & BUTTON_RIGHT != 0 ==>
      r.state == Saved && r.remaining == 15 && r.cfg == m.cfg && r.eeprom == Settings.Encode(m.cfg, m.eeprom)
    ensures buttons & (BUTTON_LEFT | BUTTON_UP | BUTTON_RIGHT) == 0 ==> r == m
  {
    if buttons & BUTTON_LEFT != 0 then m.(state := Time)
    else if buttons & BUTTON_UP != 0 then Dim(m)
    else if buttons & BUTTON_RIGHT != 0 then SaveSettings(m)
    else m
  }

  /** ST_SAVED. */
  function OnSaved(m: Machine): (r: Machine)
    requires Inv(m) && m.state == Saved
    ensures Inv(r) && r == m.(disp := r.disp, state := r.state, remaining := m.remaining - 1)
    ensures r.state == (if m.remaining == 1 then Bright else Saved)
  {
    SavedCountdown(m.(disp := SavedScreen(m.disp)))
  }

  /**
   * Editing keeps every setting within what Load accepts: an untouched
   * field keeps its value, and a touched one ends below the edit limit.
   */
  lemma EditKeepsRange(c: Settings.Config, s: State, buttons: bv8)
    requires Settings.InRange(c) && Editing(s)
    ensures var f := FieldOf(s);
      Settings.InRange(Settings.With(c, f, Edit(Settings.Get(c, f), buttons, Limit(s)).0))
  {
    var f := FieldOf(s);
    var e := Edit(Settings.Get(c, f), buttons, Limit(s));
    if buttons != 0 {
      Settings.InRangeByField(c);
      LimitWithinRange(s, e.0);
      Settings.InRangeByField(Settings.With(c, f, e.0));
    }
  }

  /** The edit states: show the screen, then EditNum on the state's field. */
  function OnEdit(m: Machine, buttons: bv8): (r: Machine)
    requires Inv(m) && Editing(m.state)
    ensures Inv(r)
    ensures var e := Edit(Settings.Get(m.cfg, FieldOf(m.state)), buttons, Limit(m.state));
      r.cfg == Settings.With(m.cfg, FieldOf(m.state), e.0) &&
      r.state == (if e.1 then Committed(m.state) else m.state)
    ensures r == m.(disp := r.disp, cfg := r.cfg, state := r.state, clk := r.clk)
    ensures r.clk == (if buttons == 0 then m.clk else m.clk.(phase := 0))
  {
    var f := FieldOf(m.state);
    var e := Edit(Settings.Get(m.cfg, f), buttons, Limit(m.state));
    EditKeepsRange(m.cfg, m.state, buttons);
    m.(disp := MenuScreen(m),
       cfg := Settings.With(m.cfg, f, e.0),
       clk := if buttons == 0 then m.clk else m.clk.(phase := 0),
       state := if e.1 then Committed(m.state) else m.state)
  }

  /** ST_RUN_PRIME: raise the mirror first if there is an MLU time, else start the exposure at once. */
  function OnRunPrime(m: Machine): (r: (Machine, bool))
    requires Inv(m) && m.state == RunPrime
    ensures Inv(r.0) && (r.1 ==> Rank(r.0) < Rank(m))
    ensures m.cfg.mlu > 0 ==> !r.1 && r.0 == m.(state := MluPrime, shutter := true, disp := r.0.disp)
    ensures m.cfg.mlu == 0 ==> r == (InitRun(m), true)
  {
    if m.cfg.mlu > 0 then
      var raised := RaiseMirror(m);
      (raised.(disp := WriteAlnumMk2(raised.disp, DIGITS_MK2, LETTER_L, raised.cfg.mlu, raised.clk.phase, 0)), false)
    else
      (InitRun(m), true)
  }

  /** ST_RUN_AUTO and ST_RUN_MANUAL: end the exposure when the clock has stopped, else show it. */
  function OnRun(m: Machine): (r: (Machine, bool))
    requires Inv(m) && (m.state == RunAuto || m.state == RunManual)
    ensures Inv(r.0) && (r.1 ==> Rank(r.0) < Rank(m))
    ensures m.state == RunAuto && m.clk.dir == STOPPED ==> r == ExposureDone(m)
    ensures !(m.state == RunAuto && m.clk.dir == STOPPED) ==> r == (m.(disp := RunScreen(m, COLON)), false)
  {
    if m.state == RunAuto && m.clk.dir == STOPPED then ExposureDone(m)
    else (m.(disp := RunScreen(m, COLON)), false)
  }

  /** ST_MLU_PRIME (falling through) and ST_MLU_WAIT. */
  function OnMlu(m: Machine): (r: (Machine, bool))
    requires Inv(m) && (m.state == MluPrime || m.state == MluWait)
    ensures Inv(r.0) && (r.1 ==> Rank(r.0) < Rank(m))
    ensures r.0.cfg == m.cfg && r.0.prevstate == m.prevstate && r.0.remaining == m.remaining && r.0.cmode == m.cmode
    ensures m.state == MluPrime ==>
      !r.1 && r.0.state == MluWait && !r.0.shutter && r.0.clk == Counter(0, m.cfg.mlu, DOWN, true, 0)
    ensures m.state == MluWait && m.clk.dir != STOPPED ==> !r.1 && r.0 == m.(disp := r.0.disp)
    ensures m.state == MluWait && m.clk.dir == STOPPED ==>
      r.1 && r.0 == InitRun(m.(disp := r.0.disp))
  {
    var waiting := if m.state == MluPrime then PrimeMlu(m) else m;
    var shown := waiting.(disp := WriteAlnumMk2(waiting.disp, DIGITS_MK2, LETTER_L, Wrap(waiting.clk.sec),
                                                waiting.clk.phase, 0));
    if shown.clk.dir == STOPPED then (MluDone(shown), true) else (shown, false)
  }

  /** ST_WAIT: show the delay, and prime the next exposure when it has run out. */
  function OnWait(m: Machine): (r: (Machine, bool))
    requires Inv(m) && m.state == Wait
    ensures Inv(r.0) && (r.1 ==> Rank(r.0) < Rank(m))
    ensures m.clk.dir == STOPPED ==>
      r.1 && r.0 == m.(disp := RunScreen(m, LOWDOT), state := RunPrime, clk := m.clk.(enabled := false))
    ensures m.clk.dir != STOPPED ==> r == (m.(disp := RunScreen(m, LOWDOT)), false)
  {
    var shown := m.(disp := RunScreen(m, LOWDOT));
    if m.clk.dir == STOPPED then (WaitDone(shown), true) else (shown, false)
  }

  /** One execution of the switch; the flag is `goto newstate`. */
  function OnCase(m: Machine, buttons: bv8): (r: (Machine, bool))
    requires Inv(m)
    ensures Inv(r.0) && (r.1 ==> Rank(r.0) < Rank(m))
    ensures r.0.prevstate == m.prevstate
    // no case opens the shutter or starts the clock outside a run
    ensures Quiet(m) ==> Quiet(r.0)
    // a jump back only happens between run states
    ensures r.1 ==> Running(m.state) && Running(r.0.state)
  {
    if Running(m.state) then OnRunCase(m) else (OnSettingsCase(m, buttons), false)
  }

  /** The cases of the switch before ST_RUN_PRIME: menu, options and edit states. */
  function OnSettingsCase(m: Machine, buttons: bv8): (r: Machine)
    requires Inv(m) && !Running(m.state)
    ensures Inv(r) && !Running(r.state)
    ensures r.prevstate == m.prevstate && r.shutter == m.shutter && r.clk.enabled == m.clk.enabled
  {
    if Browsing(m.state) then OnBrowse(m, buttons) else OnOptionCase(m, buttons)
  }

  /** The brightness screen, SAVED and the edit states. */
  function OnOptionCase(m: Machine, buttons: bv8): (r: Machine)
    requires Inv(m) && !Running(m.state) && !Browsing(m.state)
    ensures Inv(r) && !Running(r.state)
    ensures r.prevstate == m.prevstate && r.shutter == m.shutter && r.clk.enabled == m.clk.enabled
  {
    if m.state == Bright then OnBright(m, buttons)
    else if m.state == Saved then OnSaved(m)
    else OnEdit(m, buttons)
  }

  /** The cases of the switch from ST_RUN_PRIME on; the keys are handled after the switch. */
  function OnRunCase(m: Machine): (r: (Machine, bool))
    requires Inv(m) && Running(m.state)
    ensures Inv(r.0) && (r.1 ==> Rank(r.0) < Rank(m) && Running(r.0.state))
    ensures r.0.prevstate == m.prevstate && r.0.cfg == m.cfg
    ensures Quiet(m) ==> Quiet(r.0)
    // a run state ends in a run state, or in the remembered screen with everything stopped
    ensures Running(r.0.state) || (r.0.state == m.prevstate && !r.0.shutter && !r.0.clk.enabled)
    // bulb mode is entered with the clock at the exposure time, and does not move by itself
    ensures m.state != RunManual && r.0.state == RunManual ==>
      r.0.clk.min == m.cfg.timeMin && r.0.clk.sec == m.cfg.timeSec
    ensures m.state == RunManual ==> !r.1 && r.0 == m.(disp := r.0.disp)
  {
    match m.state
    case RunPrime => OnRunPrime(m)
    case RunManual => OnRun(m)
    case MluPrime => OnMlu(m)
    case MluWait => OnMlu(m)
    case RunAuto => OnRun(m)
    case Wait => OnWait(m)
  }

  /** The switch with its `goto newstate` re-dispatches. */
  function Dispatched(m: Machine, buttons: bv8): (r: Machine)
    requires Inv(m)
    ensures Inv(r)
    decreases Rank(m)
  {
    var c := OnCase(m, buttons);
    if c.1 then Dispatched(c.0, buttons) else c.0
  }

  /** How many times the switch runs in one pass: at most three. */
  function Hops(m: Machine, buttons: bv8): (n: nat)
    requires Inv(m)
    ensures 1 <= n <= Rank(m) + 1 <= 3
    decreases Rank(m)
  {
    var c := OnCase(m, buttons);
    if c.1 then 1 + Hops(c.0, buttons) else 1
  }

  /** One pass of the main loop on the keys GetButtons reported. */
  function Step(m: Machine, buttons: bv8): (r: Machine)
    requires Inv(m)
    ensures Inv(r)
  {
    var go := buttons & BUTTON_RIGHT != 0;
    var keys := if go && Browsing(m.state) then 0 else buttons;
    var dispatched := Dispatched(StartRun(m, go), keys);
    RunKeys(dispatched, keys & BUTTON_RIGHT != 0, keys & BUTTON_LEFT != 0, keys & BUTTON_UP != 0)
  }

  /** Passes of the main loop, one per key report, with no interrupt between them. */
  function Steps(m: Machine, inputs: seq<bv8>): (r: Machine)
    requires Inv(m)
    ensures Inv(r)
    decreases |inputs|
  {
    if inputs == [] then m else Steps(Step(m, inputs[0]), inputs[1..])
  }

  /** One execution of the switch, and the passes that follow it when it jumps back. */
  lemma Redispatch(m: Machine, buttons: bv8)
    requires Inv(m)
    ensures var c := OnCase(m, buttons);
      if c.1 then Dispatched(m, buttons) == Dispatched(c.0, buttons) && Hops(m, buttons) == 1 + Hops(c.0, buttons)
      else Dispatched(m, buttons) == c.0 && Hops(m, buttons) == 1
  {
  }

  /** Outside a menu screen RIGHT is not a start, and the keys reach the switch unchanged. */
  lemma StepElsewhere(m: Machine, buttons: bv8)
    requires Inv(m) && !Browsing(m.state)
    ensures Step(m, buttons) ==
      RunKeys(Dispatched(m, buttons), buttons & BUTTON_RIGHT != 0, buttons & BUTTON_LEFT != 0, buttons & BUTTON_UP != 0)
  {
    assert StartRun(m, buttons & BUTTON_RIGHT != 0) == m;
  }

  /** The switch outside the menu screens and the run states is one execution of its case. */
  lemma SettingsStep(m: Machine, buttons: bv8)
    requires Inv(m) && !Running(m.state) && !Browsing(m.state)
    ensures Step(m, buttons) == OnOptionCase(m, buttons)
  {
    Redispatch(m, buttons);
    StepElsewhere(m, buttons);
  }

  /** The switch in an edit state. */
  lemma EditStep(m: Machine, buttons: bv8)
    requires Inv(m) && Editing(m.state)
    ensures Step(m, buttons) == OnEdit(m, buttons)
  {
    SettingsStep(m, buttons);
    assert OnOptionCase(m, buttons) == OnEdit(m, buttons);
  }

  /** The switch in the brightness screen: show the level, then handle the keys. */
  lemma BrightStep(m: Machine, buttons: bv8)
    requires Inv(m) && m.state == Bright
    ensures var shown := m.(disp := LevelScreen(m));
      Step(m, buttons) == OnBrightKeys(shown, buttons)
  {
    var shown := m.(disp := LevelScreen(m));
    assert OnBright(m, buttons) == OnBrightKeys(shown, buttons);
    assert OnOptionCase(m, buttons) == OnBright(m, buttons);
    SettingsStep(m, buttons);
  }

  lemma {:induction false} DispatchedQuiet(m: Machine, buttons: bv8)
    requires Inv(m) && Quiet(m)
    ensures Quiet(Dispatched(m, buttons))
    decreases Rank(m)
  {
    Redispatch(m, buttons);
    var c := OnCase(m, buttons);
    if c.1 {
      DispatchedQuiet(c.0, buttons);
    }
  }

  /**
   * Every pass of the loop keeps the shutter closed and the clock stopped
   * outside a run: no sequence of keys opens the shutter in a menu, edit or
   * option screen.
   */
  lemma StepQuiet(m: Machine, buttons: bv8)
    requires Inv(m) && Quiet(m)
    ensures Quiet(Step(m, buttons))
  {
    var go := buttons & BUTTON_RIGHT != 0;
    var keys := if go && Browsing(m.state) then 0 else buttons;
    DispatchedQuiet(StartRun(m, go), keys);
  }

  /**
   * A menu screen without RIGHT: LEFT moves to the next screen, else UP
   * enters the screen's edit state; the settings stay as they are and the
   * screen shows them.
   */
  lemma MenuKeys(m: Machine, buttons: bv8)
    requires Inv(m) && Browsing(m.state) && buttons & BUTTON_RIGHT == 0
    ensures var r := Step(m, buttons);
      r.state == (if buttons & BUTTON_LEFT != 0 then Next(m.state) else if buttons & BUTTON_UP != 0 then EditOf(m.state) else m.state) &&
      r.cfg == m.cfg && r.disp == MenuScreen(m) && r.clk == m.clk && r.shutter == m.shutter
  {
    assert StartRun(m, false) == m;
    Redispatch(m, buttons);
  }

  /**
   * An edit state: the field becomes what Edit makes of it, every other
   * setting stays, and UP commits to the next state.
   */
  lemma EditKeys(m: Machine, buttons: bv8)
    requires Inv(m) && Editing(m.state)
    ensures var r := Step(m, buttons);
      var f := FieldOf(m.state);
      var e := Edit(Settings.Get(m.cfg, f), buttons, Limit(m.state));
      r.cfg == Settings.With(m.cfg, f, e.0) &&
      r.state == (if buttons & BUTTON_UP != 0 then Committed(m.state) else m.state) &&
      r.shutter == m.shutter && r.remaining == m.remaining
  {
    EditStep(m, buttons);
  }

  /**
   * The brightness screen: LEFT goes back to the time screen; else UP dims
   * the display one level and the comparator follows; else RIGHT saves the
   * settings, which MkII.c's Load reads back unchanged, and shows SAVED
   * for 15 passes.
   */
  lemma BrightKeys(m: Machine, buttons: bv8)
    requires Inv(m) && m.state == Bright
    ensures var r := Step(m, buttons);
      (buttons & BUTTON_LEFT != 0 ==> r.state == Time && r.cfg == m.cfg) &&
      (buttons & BUTTON_LEFT == 0 && buttons & BUTTON_UP != 0 ==>
        r.state == Bright && r.cfg.bright == Dimmer(m.cfg.bright) && r.comparator == Brightness(r.cfg.bright)) &&
      (buttons & (BUTTON_LEFT | BUTTON_UP) == 0 && buttons & BUTTON_RIGHT != 0 ==>
        r.state == Saved && r.remaining == 15 && r.cfg == m.cfg &&
        Settings.DecodeMk2(r.eeprom) == m.cfg && Settings.DecodeMk2Checked(r.eeprom) == m.cfg)
  {
    var shown := m.(disp := LevelScreen(m));
    var r := OnBrightKeys(shown, buttons);
    if buttons & (BUTTON_LEFT | BUTTON_UP) == 0 && buttons & BUTTON_RIGHT != 0 {
      assert r.eeprom == Settings.Encode(m.cfg, m.eeprom);
      Settings.SaveLoadRoundTrip(m.cfg, m.eeprom, Settings.DEFAULTS_MK2);
      assert Settings.DecodeMk2(r.eeprom) == m.cfg;
    }
    BrightStep(m, buttons);
  }

  /**
   * SAVED ignores every key and counts its passes down: while passes are
   * left it stays, and on the last one it returns to the brightness screen.
   */
  lemma {:induction false} SavedCountsDown(m: Machine, inputs: seq<bv8>)
    requires Inv(m) && m.state == Saved && |inputs| <= m.remaining
    ensures var r := Steps(m, inputs);
      r.remaining == m.remaining - |inputs| &&
      r.state == (if |inputs| == m.remaining then Bright else Saved) &&
      r.cfg == m.cfg && r.eeprom == m.eeprom
    decreases |inputs|
  {
    if inputs != [] {
      SettingsStep(m, inputs[0]);
      var m1 := Step(m, inputs[0]);
      assert m1 == OnSaved(m);
      if |inputs| == 1 {
        assert Steps(m1, inputs[1..]) == m1;
      } else {
        SavedCountsDown(m1, inputs[1..]);
      }
    }
  }

  /** After RIGHT saves the settings, SAVED is shown for exactly 15 passes. */
  lemma {:induction false} SavedLasts15(m: Machine, inputs: seq<bv8>)
    requires Inv(m) && m.state == Bright && |inputs| <= 15
    ensures var saved := Step(m, BUTTON_RIGHT);
      saved.state == Saved &&
      Steps(saved, inputs).state == (if |inputs| == 15 then Bright else Saved)
  {
    var saved := Step(m, BUTTON_RIGHT);
    BrightKeys(m, BUTTON_RIGHT);
    assert saved.state == Saved && saved.remaining == 15;
    SavedCountsDown(saved, inputs);
  }

  /** RUN_AUTO with time left, or RUN_MANUAL, shows the run screen and stays. */
  lemma ExposingStays(m: Machine, buttons: bv8)
    requires Inv(m) && (m.state == RunManual || (m.state == RunAuto && m.clk.dir != STOPPED))
    ensures Dispatched(m, buttons) == m.(disp := RunScreen(m, COLON)) && Hops(m, buttons) == 1
  {
    Redispatch(m, buttons);
    assert OnCase(m, buttons) == OnRun(m);
  }

  /** RUN_PRIME: with an MLU time the mirror goes up and the pass ends, else the exposure starts at once. */
  lemma PrimeDispatch(m: Machine, buttons: bv8)
    requires Inv(m) && m.state == RunPrime
    ensures var d := Dispatched(m, buttons);
      d.cfg == m.cfg && d.remaining == m.remaining && d.cmode == m.cmode && d.prevstate == m.prevstate && d.shutter &&
      (m.cfg.mlu > 0 ==> d.state == MluPrime && d.clk == m.clk && Hops(m, buttons) == 1) &&
      (m.cfg.mlu == 0 ==> d.clk == InitRun(m).clk && d.state == InitRun(m).state && Hops(m, buttons) == 2)
  {
    Redispatch(m, buttons);
    assert OnCase(m, buttons) == OnRunPrime(m);
    if m.cfg.mlu == 0 {
      ExposingStays(InitRun(m), buttons);
    }
  }

  /**
   * RIGHT in a menu screen starts a run that the same press does not
   * cancel: the screen is remembered, the count loaded, and either the
   * mirror is raised (MLU) or the exposure starts with the shutter open,
   * in bulb mode exactly when the exposure time is 0:00.
   */
  lemma StartRuns(m: Machine, buttons: bv8)
    requires Inv(m) && Quiet(m) && Browsing(m.state) && buttons & BUTTON_RIGHT != 0
    ensures var r := Step(m, buttons);
      r.prevstate == m.state && r.remaining == m.cfg.count && r.cmode == 0 && r.shutter && r.cfg == m.cfg &&
      (m.cfg.mlu > 0 ==> r.state == MluPrime && !r.clk.enabled) &&
      (m.cfg.mlu == 0 ==>
        r.clk.enabled && r.clk.min == m.cfg.timeMin && r.clk.sec == m.cfg.timeSec &&
        (r.state == RunManual <==> m.cfg.timeMin == 0 && m.cfg.timeSec == 0) &&
        (r.state != RunManual ==> r.state == RunAuto && r.clk.dir == DOWN))
  {
    var p := StartRun(m, true);
    assert p.state == RunPrime && !p.clk.enabled;
    PrimeDispatch(p, 0);
  }

  /** Dispatching a run state ends in a run state, or in the remembered screen with everything stopped. */
  lemma {:induction false} DispatchedRun(m: Machine, buttons: bv8)
    requires Inv(m) && Running(m.state)
    ensures var r := Dispatched(m, buttons);
      r.prevstate == m.prevstate && r.cfg == m.cfg &&
      (Running(r.state) || (r.state == m.prevstate && !r.shutter && !r.clk.enabled)) &&
      (r.state == RunManual && m.state != RunManual ==> r.clk.min == m.cfg.timeMin && r.clk.sec == m.cfg.timeSec) &&
      (m.state == RunManual ==> r.clk == m.clk && r.state == RunManual)
    decreases Rank(m)
  {
    Redispatch(m, buttons);
    var c := OnCase(m, buttons);
    assert c == OnRunCase(m);
    if c.1 {
      DispatchedRun(c.0, buttons);
    }
  }

  /**
   * RIGHT in a run state cancels: back to the remembered screen with the
   * shutter closed and the clock stopped; a bulb exposure keeps its counted
   * time as the new exposure time, any other run leaves the settings alone.
   */
  lemma CancelReturns(m: Machine, buttons: bv8)
    requires Inv(m) && Running(m.state) && buttons & BUTTON_RIGHT != 0
    ensures var r := Step(m, buttons);
      r.state == m.prevstate && Browsing(r.state) && !r.shutter && !r.clk.enabled &&
      (m.state == RunManual ==> r.cfg == m.cfg.(timeMin := m.clk.min, timeSec := m.clk.sec)) &&
      (m.state != RunManual ==> r.cfg == m.cfg)
  {
    StepElsewhere(m, buttons);
    DispatchedRun(m, buttons);
  }

  /**
   * LEFT during a run that goes on switches between time left and
   * exposures left, and only when more than one exposure was asked for.
   */
  lemma ToggleNeedsCount(m: Machine, buttons: bv8)
    requires Inv(m) && (m.state == RunManual || ((m.state == RunAuto || m.state == Wait) && m.clk.dir != STOPPED))
    requires buttons & BUTTON_RIGHT == 0 && buttons & BUTTON_LEFT != 0
    ensures var r := Step(m, buttons);
      r.state == m.state && r.cmode == (if m.cfg.count > 1 then 1 - m.cmode else m.cmode)
  {
    var c := OnRunCase(m);
    assert !c.1 && c.0.state == m.state && c.0.cmode == m.cmode;
    assert OnCase(m, buttons) == c;
    Redispatch(m, buttons);
    StepElsewhere(m, buttons);
  }

  /**
   * An exposure that has run out closes the shutter; the last one returns to
   * the remembered screen, any other (and every one with a count of 0)
   * loads the delay and waits.
   */
  lemma ExposureEnds(m: Machine)
    requires Inv(m) && m.state == RunAuto && m.clk.dir == STOPPED
    ensures var r := Step(m, 0);
      !r.shutter && r.cfg == m.cfg &&
      (m.remaining == 1 ==> r.state == m.prevstate && r.remaining == 0 && !r.clk.enabled) &&
      (m.remaining != 1 ==>
        r.state == Wait && r.remaining == (if m.remaining == 0 then 0 else m.remaining - 1) &&
        r.clk == Counter(m.cfg.delayMin, m.cfg.delaySec, DOWN, true, 0))
  {
    StepElsewhere(m, 0);
    Redispatch(m, 0);
    var e := ExposureDone(m);
    assert OnCase(m, 0) == e;
    if e.1 {
      Redispatch(e.0, 0);
      assert OnCase(e.0, 0) == OnWait(e.0);
    }
  }

  /**
   * A delay that has run out primes the next exposure in the same pass: the
   * mirror goes up first if there is an MLU time, otherwise the shutter opens
   * at once; three executions of the switch are needed then, the most any
   * pass takes.
   */
  lemma WaitRestarts(m: Machine)
    requires Inv(m) && m.state == Wait && m.clk.dir == STOPPED
    ensures var r := Step(m, 0);
      r.remaining == m.remaining && r.cfg == m.cfg && r.shutter &&
      (m.cfg.mlu > 0 ==> r.state == MluPrime && !r.clk.enabled && Hops(m, 0) == 2) &&
      (m.cfg.mlu == 0 ==>
        r.clk.enabled && r.clk.min == m.cfg.timeMin && r.clk.sec == m.cfg.timeSec &&
        (r.state == RunAuto || r.state == RunManual) && Hops(m, 0) == 3)
  {
    var w := OnWait(m).0;
    assert w == m.(disp := w.disp, state := RunPrime, clk := m.clk.(enabled := false));
    PrimeDispatch(w, 0);
    assert OnCase(m, 0) == (w, true);
    Redispatch(m, 0);
    StepElsewhere(m, 0);
  }

  /**
   * Mirror lock-up: MLU_PRIME releases the shutter line and counts the MLU
   * seconds down; when they have run out the exposure starts.
   */
  lemma MirrorLockUp(m: Machine)
    requires Inv(m) && (m.state == MluPrime || (m.state == MluWait && m.clk.dir == STOPPED))
    ensures var r := Step(m, 0);
      r.cfg == m.cfg && r.remaining == m.remaining &&
      (m.state == MluPrime ==>
        r.state == MluWait && !r.shutter && r.clk == Counter(0, m.cfg.mlu, DOWN, true, 0)) &&
      (m.state == MluWait ==>
        r.shutter && r.clk.enabled && (r.state == RunAuto || r.state == RunManual) &&
        r.clk.min == m.cfg.timeMin && r.clk.sec == m.cfg.timeSec)
  {
    StepElsewhere(m, 0);
    Redispatch(m, 0);
    var c := OnMlu(m);
    assert OnCase(m, 0) == c;
    if c.1 {
      ExposingStays(c.0, 0);
    }
  }

  /** The controller of MkII.c with the globals it drives and GetButtons' statics. */
  class Controller {
    var state: State
    var prevstate: State
    var remaining: byte
    var cmode: byte
    /** The shutter output (SHUTTER_ON / SHUTTER_OFF). */
    var shutterOn: bool
    const clock: Rtc
    const screen: Screen
    const store: Settings.Store
    const reader: Input.ButtonReader

    ghost predicate Valid()
      reads this, screen, store
    {
      screen.Valid() && screen.digits == DIGITS_MK2 && store.eeprom.Length >= 7
    }

    ghost function Abs(): Machine
      reads this, clock, screen, screen.buf, store, store.eeprom
    {
      Machine(state, prevstate, remaining, cmode, store.Cfg(), clock.Value(), shutterOn,
              screen.buf[..], screen.comparator, store.eeprom[..])
    }

    /**
     * main's set-up: Load (range-checked, with MkII.c's defaults), the
     * comparator from the brightness table, the clock at 0:00, and the
     * state machine's initial values.
     */
    constructor (eeprom: array<byte>)
      requires eeprom.Length >= 7
      ensures Valid() && store.eeprom == eeprom && reader.State() == Input.START
      ensures var cfg := Settings.DecodeMk2Checked(eeprom[..]);
        Abs() == Boot(cfg, eeprom[..], Brightness(cfg.bright))
    {
      shutterOn := false;
      var settings := new Settings.Store(eeprom);
      settings.Load(Settings.DEFAULTS_MK2);
      Settings.DecodeInRange(eeprom[..], Settings.DEFAULTS_MK2);
      store := settings;
      screen := new Screen(DIGITS_MK2, settings.bright);
      clock := new Rtc();
      reader := new Input.ButtonReader();
      state, prevstate, remaining, cmode := Time, Time, 0, 0;
    }

    /** EditNum, with `f` naming the setting `num` points to. */
    method EditNum(f: Settings.Field, buttons: bv8, max: byte) returns (r: bv8)
      modifies store, clock
      ensures var e := Edit(Settings.Get(old(store.Cfg()), f), buttons, max);
        store.Cfg() == Settings.With(old(store.Cfg()), f, e.0) && (r != 0 <==> e.1)
      ensures clock.Value() == if buttons == 0 then old(clock.Value()) else old(clock.Value()).(phase := 0)
    {
      if buttons == 0 {
        return 0;
      }
      clock.ResetBlink();
      var num := Settings.Get(store.Cfg(), f);
      ghost var before := num;
      if buttons & BUTTON_LEFT != 0 {
        if buttons & BUTTON_HOLD != 0 {
          num := 0;
        } else {
          num := Wrap(num + 10);
        }
      }
      assert num == Tapped(before, buttons);
      if buttons & BUTTON_RIGHT != 0 {
        num := Wrap(num + 1);
      }
      assert num == Stepped(Tapped(before, buttons), buttons);
      if num >= max {
        num := 0;
      }
      store.Put(f, num);
      return buttons & BUTTON_UP;
    }

    method InitRun()
      requires Valid()
      modifies this, clock
      ensures Valid() && Abs() == Timer.InitRun(old(Abs()))
    {
      clock.gMin := WrapSigned(store.timeMin);
      clock.gSec := WrapSigned(store.timeSec);
      if clock.gMin > 0 || clock.gSec > 0 {
        clock.gDirection := DOWN;
        state := RunAuto;
      } else {
        clock.gDirection := UP;
        state := RunManual;
      }
      shutterOn := true;
      clock.Start();
    }

    /** Two DisplayNum calls around a write of slot 2. */
    method ShowPair(hi: byte, hiMask: bv8, hiStrip: bv8, mark: bv8, lo: byte, loMask: bv8)
      requires Valid() && hi <= 99 && lo <= 99
      modifies screen.buf
      ensures screen.buf[..] == Pair(old(screen.buf[..]), clock.tcnt2, hi, hiMask, hiStrip, mark, lo, loMask)
    {
      screen.DisplayNum(hi, HIGH_POS, clock.tcnt2, hiMask, hiStrip, 0);
      screen.SetSlot(COLON_POS, mark);
      screen.DisplayNum(lo, LOW_POS, clock.tcnt2, loMask, 0, 0);
    }

    /** The display half of the menu and edit states. */
    method ShowMenu()
      requires Valid() && Inv(Abs()) && (Browsing(state) || Editing(state))
      modifies screen.buf
      ensures screen.buf[..] == MenuScreen(old(Abs()))
    {
      var ph := clock.tcnt2;
      match state
      case Time => ShowPair(store.timeMin, 0, 3, COLON, store.timeSec, 0);
      case Delay => ShowPair(store.delayMin, 0, 3, LOWDOT, store.delaySec, 0);
      case Count => screen.DisplayAlnumMk2(LETTER_C, store.count, ph, 0);
      case Mlu => screen.DisplayAlnumMk2(LETTER_L, store.mlu, ph, 0);
      case TimeSetMins => ShowPair(store.timeMin, FIELD_BLINK, 0, COLON, store.timeSec, 0);
      case TimeSetSecs => ShowPair(store.timeMin, 0, 0, COLON, store.timeSec, FIELD_BLINK);
      case DelaySetMins => ShowPair(store.delayMin, FIELD_BLINK, 0, LOWDOT, store.delaySec, 0);
      case DelaySetSecs => ShowPair(store.delayMin, 0, 0, LOWDOT, store.delaySec, FIELD_BLINK);
      case CountSet => screen.DisplayAlnumMk2(LETTER_C, store.count, ph, FIELD_BLINK);
      case MluSet => screen.DisplayAlnumMk2(LETTER_L, store.mlu, ph, FIELD_BLINK);
    }

    /** ST_TIME, ST_DELAY, ST_COUNT, ST_MLU. */
    method Browse(buttons: bv8)
      requires Valid() && Inv(Abs()) && Browsing(state)
      modifies this, screen.buf
      ensures Valid() && Abs() == OnBrowse(old(Abs()), buttons)
    {
      ShowMenu();
      if buttons & BUTTON_LEFT != 0 {
        state := Next(state);
      } else if buttons & BUTTON_UP != 0 {
        state := EditOf(state);
      }
    }

    /** The six edit states. */
    method EditSetting(buttons: bv8)
      requires Valid() && Inv(Abs()) && Editing(state)
      modifies this, screen.buf, store, clock
      ensures Valid() && Abs() == OnEdit(old(Abs()), buttons)
    {
      ShowMenu();
      var r := EditNum(FieldOf(state), buttons, Limit(state));
      if r != 0 {
        state := Committed(state);
      }
    }

    /** The brightness key: steps the level down by one, from 0 round to 3, and sets the PWM compare register from the brightness table. */
    method DimDisplay()
      requires Valid() && Inv(Abs())
      modifies screen, store
      ensures Valid() && Abs() == Dim(old(Abs()))
    {
      store.bright := Dimmer(store.bright);
      screen.SetBrightness(store.bright);
    }

    /** Save, and show SAVED for 15 passes. */
    method SaveAll()
      requires Valid() && Inv(Abs())
      modifies this, store.eeprom
      ensures Valid() && Abs() == SaveSettings(old(Abs()))
    {
      store.Save();
      state := Saved;
      remaining := 15;
    }

    /** ST_BRIGHT. */
    method AdjustBright(buttons: bv8)
      requires Valid() && Inv(Abs()) && state == Bright
      modifies this, screen, screen.buf, store, store.eeprom
      ensures Valid() && Abs() == OnBright(old(Abs()), buttons)
    {
      ShowLevel();
      BrightKeys(buttons);
    }

    /** The display half of ST_BRIGHT. */
    method ShowLevel()
      requires Valid() && Inv(Abs())
      modifies screen.buf
      ensures screen.buf[..] == LevelScreen(old(Abs()))
    {
      screen.DisplayAlnumMk2(LETTER_B, 4 - store.bright, clock.tcnt2, 0);
    }

    /** The keys of ST_BRIGHT. */
    method BrightKeys(buttons: bv8)
      requires Valid() && Inv(Abs()) && state == Bright
      modifies this, screen, store, store.eeprom
      ensures Valid() && Abs() == OnBrightKeys(old(Abs()), buttons)
    {
      if buttons & BUTTON_LEFT != 0 {
        state := Time;
      } else if buttons & BUTTON_UP != 0 {
        DimDisplay();
      } else if buttons & BUTTON_RIGHT != 0 {
        SaveAll();
      }
    }

    /** ST_SAVED. */
    method ShowSaved()
      requires Valid() && Inv(Abs()) && state == Saved
      modifies this, screen.buf
      ensures Valid() && Abs() == OnSaved(old(Abs()))
    {
      screen.SetSlot(0, LETTER_S);
      screen.SetSlot(1, LETTER_A);
      screen.SetSlot(2, EMPTY);
      screen.SetSlot(3, LETTER_V);
      screen.SetSlot(4, LETTER_E);
      remaining := remaining - 1;
      if remaining == 0 {
        state := Bright;
      }
    }

    /** ST_RUN_PRIME. */
    method Prime() returns (again: bool)
      requires Valid() && Inv(Abs()) && state == RunPrime
      modifies this, clock, screen.buf
      ensures Valid() && (Abs(), again) == OnRunPrime(old(Abs()))
    {
      if store.mlu > 0 {
        state := MluPrime;
        shutterOn := true;
        screen.DisplayAlnumMk2(LETTER_L, store.mlu, clock.tcnt2, 0);
        again := false;
      } else {
        InitRun();
        again := true;
      }
    }

    /** The display half of ST_RUN_AUTO, ST_RUN_MANUAL and ST_WAIT. */
    method ShowRun(mark: bv8)
      requires Valid() && Inv(Abs())
      modifies screen.buf
      ensures screen.buf[..] == RunScreen(old(Abs()), mark)
    {
      var ph := clock.tcnt2;
      if cmode == 0 {
        screen.DisplayNum(Wrap(clock.gMin), HIGH_POS, ph, 0, 3, 0);
        screen.DisplayNum(Wrap(clock.gSec), LOW_POS, ph, 0, 0, 0);
      } else {
        screen.DisplayAlnumMk2(LETTER_C, remaining, ph, 0);
      }
      screen.SetSlot(COLON_POS, if ph & SECOND_HALF != 0 then EMPTY else mark);
    }

    /** ST_RUN_AUTO once the clock has stopped. */
    method EndExposure() returns (again: bool)
      requires Valid() && Inv(Abs()) && state == RunAuto
      modifies this, clock
      ensures Valid() && (Abs(), again) == ExposureDone(old(Abs()))
    {
      CloseShutter();
      if remaining == 1 {
        remaining := 0;
        state := prevstate;
        again := false;
      } else {
        if remaining > 0 {
          remaining := remaining - 1;
        }
        LoadDelay();
        again := true;
      }
    }

    /** SHUTTER_OFF and clock_stop. */
    method CloseShutter()
      modifies this, clock
      ensures Abs() == old(Abs()).(shutter := false, clk := old(Abs()).clk.(enabled := false))
    {
      shutterOn := false;
      clock.Stop();
    }

    /** Loads the stored delay into the clock, makes it count down, enters the wait state and starts the clock. */
    method LoadDelay()
      modifies this, clock
      ensures state == Wait && clock.Value() == Counter(WrapSigned(store.delayMin), WrapSigned(store.delaySec), DOWN, true, 0)
      ensures prevstate == old(prevstate) && remaining == old(remaining) && cmode == old(cmode) && shutterOn == old(shutterOn)
    {
      clock.gMin := WrapSigned(store.delayMin);
      clock.gSec := WrapSigned(store.delaySec);
      clock.gDirection := DOWN;
      state := Wait;
      clock.Start();
    }

    /** ST_RUN_AUTO (falling through to) ST_RUN_MANUAL. */
    method Expose() returns (again: bool)
      requires Valid() && Inv(Abs()) && (state == RunAuto || state == RunManual)
      modifies this, clock, screen.buf
      ensures Valid() && (Abs(), again) == OnRun(old(Abs()))
    {
      if state == RunAuto && clock.gDirection == STOPPED {
        again := EndExposure();
        return;
      }
      ShowRun(COLON);
      return false;
    }

    /** ST_MLU_PRIME (falling through to) ST_MLU_WAIT. */
    method LockMirror() returns (again: bool)
      requires Valid() && Inv(Abs()) && (state == MluPrime || state == MluWait)
      modifies this, clock, screen.buf
      ensures Valid() && (Abs(), again) == OnMlu(old(Abs()))
    {
      if state == MluPrime {
        shutterOn := false;
        clock.gMin := 0;
        clock.gSec := WrapSigned(store.mlu);
        clock.gDirection := DOWN;
        state := MluWait;
        clock.Start();
      }
      screen.DisplayAlnumMk2(LETTER_L, Wrap(clock.gSec), clock.tcnt2, 0);
      if clock.gDirection == STOPPED {
        clock.Stop();
        InitRun();
        return true;
      }
      return false;
    }

    /** ST_WAIT. */
    method Pause() returns (again: bool)
      requires Valid() && Inv(Abs()) && state == Wait
      modifies this, clock, screen.buf
      ensures Valid() && (Abs(), again) == OnWait(old(Abs()))
    {
      ShowRun(LOWDOT);
      if clock.gDirection == STOPPED {
        clock.Stop();
        state := RunPrime;
        return true;
      }
      return false;
    }

    /** One execution of the switch. */
    method Switch(buttons: bv8) returns (again: bool)
      requires Valid() && Inv(Abs())
      modifies this, clock, screen, screen.buf, store, store.eeprom
      ensures Valid() && (Abs(), again) == OnCase(old(Abs()), buttons)
    {
      if Running(state) {
        again := SwitchRun();
      } else {
        SwitchSettings(buttons);
        again := false;
      }
    }

    /** The cases of the switch before ST_RUN_PRIME: menu, options and edit states. */
    method SwitchSettings(buttons: bv8)
      requires Valid() && Inv(Abs()) && !Running(state)
      modifies this, clock, screen, screen.buf, store, store.eeprom
      ensures Valid() && Abs() == OnSettingsCase(old(Abs()), buttons)
    {
      if Browsing(state) {
        Browse(buttons);
      } else {
        SwitchOption(buttons);
      }
    }

    /** The brightness screen, SAVED and the edit states. */
    method SwitchOption(buttons: bv8)
      requires Valid() && Inv(Abs()) && !Running(state) && !Browsing(state)
      modifies this, clock, screen, screen.buf, store, store.eeprom
      ensures Valid() && Abs() == OnOptionCase(old(Abs()), buttons)
    {
      if state == Bright {
        AdjustBright(buttons);
      } else if state == Saved {
        ShowSaved();
      } else {
        EditSetting(buttons);
      }
    }

    /** The cases of the switch from ST_RUN_PRIME on: the run states. */
    method SwitchRun() returns (again: bool)
      requires Valid() && Inv(Abs()) && Running(state)
      modifies this, clock, screen.buf
      ensures Valid() && (Abs(), again) == OnCase(old(Abs()), 0)
      ensures forall buttons :: OnCase(old(Abs()), buttons) == OnCase(old(Abs()), 0)
    {
      match state
      case RunPrime => again := Prime();
      case RunManual => again := Expose();
      case MluPrime => again := LockMirror();
      case MluWait => again := LockMirror();
      case RunAuto => again := Expose();
      case Wait => again := Pause();
    }

    /** The switch, repeated while a case jumps back to `newstate`. */
    method Dispatch(buttons: bv8)
      requires Valid() && Inv(Abs())
      modifies this, clock, screen, screen.buf, store, store.eeprom
      ensures Valid() && Abs() == Dispatched(old(Abs()), buttons)
    {
      var again := true;
      while again
        invariant Valid() && Inv(Abs())
        invariant again ==> Dispatched(Abs(), buttons) == Dispatched(old(Abs()), buttons)
        invariant !again ==> Abs() == Dispatched(old(Abs()), buttons)
        decreases again, Rank(Abs())
      {
        ghost var before := Abs();
        again := Switch(buttons);
        assert Dispatched(before, buttons) ==
          if again then Dispatched(Abs(), buttons) else Abs();
      }
    }

    /** RIGHT during a run: stop, keep a bulb exposure's time, and go back. */
    method CancelRun()
      requires Valid() && Inv(Abs()) && Running(state)
      modifies this, clock, store
      ensures Valid() && Abs() == Cancel(old(Abs()))
    {
      clock.Stop();
      shutterOn := false;
      if state == RunManual {
        store.timeMin := Wrap(clock.gMin);
        store.timeSec := Wrap(clock.gSec);
      }
      state := prevstate;
    }

    /** The key handling after the switch. */
    method CheckKeys(buttons: bv8)
      requires Valid() && Inv(Abs())
      modifies this, clock, screen, store
      ensures Valid()
      ensures Abs() == RunKeys(old(Abs()), buttons & BUTTON_RIGHT != 0, buttons & BUTTON_LEFT != 0, buttons & BUTTON_UP != 0)
    {
      if Running(state) {
        if buttons & BUTTON_RIGHT != 0 {
          CancelRun();
        } else if buttons & BUTTON_LEFT != 0 && store.count > 1 {
          cmode := (cmode + 1) % 2;
        } else if buttons & BUTTON_UP != 0 {
          DimDisplay();
        }
      }
    }

    /**
     * One pass of the `for(;;)` loop: GetButtons on the raw sample of the
     * three key lines, then the rest of the pass on what it reported.
     */
    method Cycle(sample: bv8)
      requires Valid() && Inv(Abs())
      modifies this, reader, clock, screen, screen.buf, store, store.eeprom
      ensures Valid()
      ensures var p := Input.Poll(old(reader.State()), sample);
        reader.State() == p.next && Abs() == Step(old(Abs()), p.events)
    {
      var buttons := reader.GetButtons(sample);
      Pass(buttons);
    }

    /** The start check, the switch and the key handling. */
    method Pass(buttons: bv8)
      requires Valid() && Inv(Abs())
      modifies this, clock, screen, screen.buf, store, store.eeprom
      ensures Valid() && Abs() == Step(old(Abs()), buttons)
    {
      var keys := buttons;
      if keys & BUTTON_RIGHT != 0 && Browsing(state) {
        prevstate := state;
        remaining := store.count;
        cmode := 0;
        keys := 0;
        state := RunPrime;
      }
      Dispatch(keys);
      CheckKeys(keys);
    }

    /** The overflow interrupt, run between passes of the loop when enabled. */
    method Interrupt()
      requires Valid() && Inv(Abs())
      modifies clock
      ensures Valid() && Abs() == Elapse(old(Abs()))
    {
      if clock.enabled {
        clock.Tick();
      }
    }
  }
}
