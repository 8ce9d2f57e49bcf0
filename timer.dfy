/**
 * What the two main loops (MkII.c and firmware/main.c) have in common: the
 * state enumeration, the controller's abstract state, its invariant, and
 * the parts of the loop body that are the same in both revisions (starting
 * a run, InitRun, the end of an exposure, the mirror lock-up priming, the
 * key handling in the run states, Save). What differs, the keys and the
 * screens, is in the revision modules.
 */
module Timer {
  import opened Bytes
  import opened Clock
  import Settings
  import Display

  /** enum State, in declaration order. */
  datatype State =
    // main exposure menu
    | Time | Delay | Count | Mlu
    // options
    | Bright | Saved
    // edit states
    | TimeSetMins | TimeSetSecs | DelaySetMins | DelaySetSecs | CountSet | MluSet
    // run states
    | RunPrime | RunManual | MluPrime | MluWait | RunAuto | Wait

  /** The enumerator's value, which the loop compares with `<` and `>=`. */
  function Ordinal(s: State): (n: nat)
    ensures n < 18
  {
    match s
    case Time => 0
    case Delay => 1
    case Count => 2
    case Mlu => 3
    case Bright => 4
    case Saved => 5
    case TimeSetMins => 6
    case TimeSetSecs => 7
    case DelaySetMins => 8
    case DelaySetSecs => 9
    case CountSet => 10
    case MluSet => 11
    case RunPrime => 12
    case RunManual => 13
    case MluPrime => 14
    case MluWait => 15
    case RunAuto => 16
    case Wait => 17
  }

  /** The four screens of the exposure menu. */
  predicate Browsing(s: State)
  {
    s.Time? || s.Delay? || s.Count? || s.Mlu?
  }

  /** The six edit states. */
  predicate Editing(s: State)
  {
    s.TimeSetMins? || s.TimeSetSecs? || s.DelaySetMins? || s.DelaySetSecs? || s.CountSet? || s.MluSet?
  }

  /** The run states. */
  predicate Running(s: State)
  {
    s.RunPrime? || s.RunManual? || s.MluPrime? || s.MluWait? || s.RunAuto? || s.Wait?
  }

  /**
   * The groups are the ranges the loop tests with `state < ST_BRIGHT` and
   * `state >= ST_RUN_PRIME`, and every state is in exactly one of: a menu
   * screen, an option screen, an edit state, a run state.
   */
  lemma StatesPartition(s: State)
    ensures Browsing(s) <==> Ordinal(s) < Ordinal(Bright)
    ensures Editing(s) <==> Ordinal(TimeSetMins) <= Ordinal(s) < Ordinal(RunPrime)
    ensures Running(s) <==> Ordinal(s) >= Ordinal(RunPrime)
    ensures Browsing(s) || s == Bright || s == Saved || Editing(s) || Running(s)
    ensures Browsing(s) ==> !Editing(s) && !Running(s) && s != Bright && s != Saved
    ensures Editing(s) ==> !Running(s)
  {
  }

  /** The screen SELECT moves to: time, delay, count, MLU, brightness, and back to time. */
  function Next(s: State): (t: State)
    requires Browsing(s) || s == Bright
    ensures Browsing(t) || t == Bright
    ensures t != s
  {
    match s
    case Time => Delay
    case Delay => Count
    case Count => Mlu
    case Mlu => Bright
    case Bright => Time
  }

  /** SELECT pressed five times comes back to the screen it started from. */
  lemma {:induction false} SelectCycles(s: State)
    requires Browsing(s) || s == Bright
    ensures Next(Next(Next(Next(Next(s))))) == s
    ensures s != Bright ==> Next(Next(Next(Next(s)))) != s
  {
    match s
    case Time =>
    case Delay =>
    case Count =>
    case Mlu =>
    case Bright =>
  }

  /** The edit state SET enters from a menu screen. */
  function EditOf(s: State): (t: State)
    requires Browsing(s)
    ensures Editing(t)
  {
    match s
    case Time => TimeSetMins
    case Delay => DelaySetMins
    case Count => CountSet
    case Mlu => MluSet
  }

  /**
   * The state a committed edit moves to: minutes go on to seconds, and the
   * last field of a screen returns to that screen.
   */
  function Committed(s: State): (t: State)
    requires Editing(s)
    ensures Editing(t) || Browsing(t)
  {
    match s
    case TimeSetMins => TimeSetSecs
    case TimeSetSecs => Time
    case DelaySetMins => DelaySetSecs
    case DelaySetSecs => Delay
    case CountSet => Count
    case MluSet => Mlu
  }

  /** SET on a menu screen followed by as many commits as it has fields returns to the screen. */
  lemma EditChainsReturn(s: State)
    requires Browsing(s)
    ensures var e := EditOf(s);
      if s == Time || s == Delay then
        Editing(Committed(e)) && Committed(Committed(e)) == s
      else
        Committed(e) == s
  {
  }

  /** The setting an edit state changes. */
  function FieldOf(s: State): Settings.Field
    requires Editing(s)
  {
    match s
    case TimeSetMins => Settings.TimeMin
    case TimeSetSecs => Settings.TimeSec
    case DelaySetMins => Settings.DelayMin
    case DelaySetSecs => Settings.DelaySec
    case CountSet => Settings.Count
    case MluSet => Settings.Mlu
  }

  /** The `max` argument each edit state passes to EditNum. */
  function Limit(s: State): (max: byte)
    requires Editing(s)
    ensures max == 60 || max == 100
  {
    match s
    case TimeSetMins => 100
    case TimeSetSecs => 60
    case DelaySetMins => 100
    case DelaySetSecs => 60
    case CountSet => 100
    case MluSet => 60
  }

  /**
   * Every value below an edit state's limit is one Load accepts for its
   * field; the converse fails for the MLU time, which Load accepts up to 99
   * but the editor keeps below 60.
   */
  lemma LimitWithinRange(s: State, v: byte)
    requires Editing(s)
    ensures v < Limit(s) ==> v <= Settings.Get(Settings.MAX, FieldOf(s))
    ensures s != MluSet ==> (v < Limit(s) <==> v <= Settings.Get(Settings.MAX, FieldOf(s)))
  {
    match s
    case TimeSetMins =>
    case TimeSetSecs =>
    case DelaySetMins =>
    case DelaySetSecs =>
    case CountSet =>
    case MluSet =>
  }

  /**
   * The controller's whole state: the loop's locals state, prevstate,
   * remaining and cmode; the settings globals; the clock globals with the
   * interrupt enable and TCNT2; the shutter output; the display buffer; the
   * blanking comparator; the EEPROM.
   */
  datatype Machine = Machine(
    state: State, prevstate: State, remaining: byte, cmode: byte,
    cfg: Settings.Config, clk: Counter, shutter: bool,
    disp: seq<bv8>, comparator: bv8, eeprom: seq<byte>)

  /**
   * What every reachable state satisfies, and what the screens need: every
   * number shown is at most 99, so every digits[] index is at most 9.
   */
  predicate Inv(m: Machine)
  {
    Settings.InRange(m.cfg) &&
    InRange(m.clk) && (m.clk.dir == UP || m.clk.dir == DOWN || m.clk.dir == STOPPED) &&
    (m.clk.dir == UP ==> m.clk.sec <= 59) &&
    m.remaining <= 99 && (m.state == Saved ==> m.remaining >= 1) &&
    m.cmode <= 1 &&
    (m.state == RunManual ==> m.clk.dir == UP) &&
    Browsing(m.prevstate) &&
    |m.disp| == 5 && |m.eeprom| >= 7
  }

  /**
   * An upper bound on the `goto newstate` hops still to come: an elapsed
   * wait goes to RUN_PRIME, RUN_PRIME (and an elapsed exposure or MLU wait)
   * goes to a state that stops.
   */
  function Rank(m: Machine): nat
  {
    if m.state == Wait && m.clk.dir == STOPPED then 2
    else if m.state == RunPrime then 1
    else if (m.state == RunAuto || m.state == MluWait) && m.clk.dir == STOPPED then 1
    else 0
  }

  /**
   * The shutter is open only while exposing or raising the mirror, and the
   * clock only runs in a run state: outside a run the camera is idle.
   */
  predicate Quiet(m: Machine)
  {
    (m.shutter ==> m.state == RunAuto || m.state == RunManual || m.state == MluPrime) &&
    (m.clk.enabled ==> Running(m.state))
  }

  /** The state after power-on with the given EEPROM and loaded settings. */
  function Boot(cfg: Settings.Config, eeprom: seq<byte>, comparator: bv8): (m: Machine)
    requires Settings.InRange(cfg) && |eeprom| >= 7
    ensures Inv(m) && Quiet(m) && m.state == Time && !m.shutter && !m.clk.enabled
  {
    Machine(Time, Time, 0, 0, cfg, Counter(0, 0, DOWN, false, 0), false,
            [Display.EMPTY, Display.EMPTY, Display.EMPTY, Display.EMPTY, Display.EMPTY],
            comparator, eeprom)
  }

  /**
   * The run key in a menu screen: remember the screen, load the count, show
   * the time first, and go to RUN_PRIME. Anywhere else the key is left to
   * the state's own handling.
   */
  function StartRun(m: Machine, go: bool): (r: Machine)
    requires Inv(m)
    ensures Inv(r)
    ensures go && Browsing(m.state) ==>
      r.state == RunPrime && r.prevstate == m.state && r.remaining == m.cfg.count && r.cmode == 0 &&
      r.cfg == m.cfg && r.clk == m.clk && r.shutter == m.shutter && r.disp == m.disp
    ensures !(go && Browsing(m.state)) ==> r == m
  {
    if go && Browsing(m.state) then
      m.(prevstate := m.state, remaining := m.cfg.count, cmode := 0, state := RunPrime)
    else m
  }

  /** A menu screen's keys: SELECT to the next screen, else SET into its edit state. */
  function Browse(m: Machine, select: bool, edit: bool): (r: Machine)
    requires Inv(m) && Browsing(m.state)
    ensures Inv(r) && r == m.(state := r.state)
    ensures r.state == (if select then Next(m.state) else if edit then EditOf(m.state) else m.state)
  {
    if select then m.(state := Next(m.state))
    else if edit then m.(state := EditOf(m.state))
    else m
  }

  /**
   * InitRun: load the exposure time into the clock; 0:00 counts up (bulb,
   * RUN_MANUAL), anything else counts down (RUN_AUTO); open the shutter and
   * start the clock.
   */
  function InitRun(m: Machine): (r: Machine)
    ensures r.shutter && r.clk.enabled && r.clk.phase == 0
    ensures r == m.(state := r.state, clk := r.clk, shutter := true)
    ensures Settings.InRange(m.cfg) ==>
      r.clk.min == m.cfg.timeMin && r.clk.sec == m.cfg.timeSec &&
      (r.state == RunManual <==> m.cfg.timeMin == 0 && m.cfg.timeSec == 0) &&
      (r.state == RunManual ==> r.clk.dir == UP) &&
      (r.state != RunManual ==> r.state == RunAuto && r.clk.dir == DOWN)
    ensures Inv(m) ==> Inv(r)
  {
    var min := WrapSigned(m.cfg.timeMin);
    var sec := WrapSigned(m.cfg.timeSec);
    var counting := if min > 0 || sec > 0 then m.clk.(min := min, sec := sec, dir := DOWN)
                    else m.clk.(min := min, sec := sec, dir := UP);
    var state := if min > 0 || sec > 0 then RunAuto else RunManual;
    m.(state := state, shutter := true, clk := counting.(phase := 0, enabled := true))
  }

  /**
   * RUN_AUTO when the clock has stopped: close the shutter and stop the
   * clock; if that was the last exposure, return to the screen the run was
   * started from; otherwise (or with a count of 0, which never runs out)
   * load the delay, count it down and continue in ST_WAIT. The flag says
   * whether the state is re-dispatched in the same pass.
   */
  function ExposureDone(m: Machine): (r: (Machine, bool))
    requires Inv(m) && m.state == RunAuto
    ensures Inv(r.0) && !r.0.shutter
    ensures r.0.cfg == m.cfg && r.0.prevstate == m.prevstate && r.0.disp == m.disp
    ensures m.remaining == 1 ==>
      !r.1 && r.0.state == m.prevstate && r.0.remaining == 0 && !r.0.clk.enabled
    ensures m.remaining != 1 ==>
      r.1 && r.0.state == Wait && r.0.remaining == (if m.remaining == 0 then 0 else m.remaining - 1) &&
      r.0.clk == Counter(m.cfg.delayMin, m.cfg.delaySec, DOWN, true, 0)
  {
    var stopped := m.(shutter := false, clk := m.clk.(enabled := false));
    if m.remaining > 0 && m.remaining - 1 == 0 then
      (stopped.(remaining := 0, state := m.prevstate), false)
    else
      var remaining := if m.remaining > 0 then m.remaining - 1 else m.remaining;
      var delay := Counter(WrapSigned(m.cfg.delayMin), WrapSigned(m.cfg.delaySec), DOWN,
                           stopped.clk.enabled, stopped.clk.phase);
      (stopped.(remaining := remaining, clk := delay.(phase := 0, enabled := true), state := Wait), true)
  }

  /** RUN_PRIME with mirror lock-up: open the shutter to raise the mirror and go to MLU_PRIME. */
  function RaiseMirror(m: Machine): (r: Machine)
    requires Inv(m) && m.cfg.mlu > 0
    ensures Inv(r) && r == m.(state := MluPrime, shutter := true)
  {
    m.(state := MluPrime, shutter := true)
  }

  /**
   * MLU_PRIME: release the shutter line, count the MLU seconds down as
   * 0:mlu and continue in MLU_WAIT.
   */
  function PrimeMlu(m: Machine): (r: Machine)
    requires Inv(m)
    ensures Inv(r) && r.state == MluWait && !r.shutter
    ensures r.clk == Counter(0, m.cfg.mlu, DOWN, true, 0)
    ensures r == m.(state := MluWait, shutter := false, clk := r.clk)
  {
    var counting := m.clk.(min := 0, sec := WrapSigned(m.cfg.mlu), dir := DOWN);
    m.(shutter := false, clk := counting.(phase := 0, enabled := true), state := MluWait)
  }

  /** The end of an MLU wait: stop the clock and start the exposure. */
  function MluDone(m: Machine): (r: Machine)
    requires Inv(m) && m.state == MluWait
    ensures Inv(r) && r == InitRun(m)
  {
    InitRun(m.(clk := m.clk.(enabled := false)))
  }

  /** ST_WAIT when the clock has stopped: stop the clock and prime the next exposure. */
  function WaitDone(m: Machine): (r: Machine)
    requires Inv(m) && m.state == Wait
    ensures Inv(r) && r == m.(state := RunPrime, clk := m.clk.(enabled := false))
  {
    m.(clk := m.clk.(enabled := false), state := RunPrime)
  }

  /**
   * Cancelling a run: stop the clock, close the shutter, keep the counted-up
   * time as the new exposure time when in bulb mode, and return to the
   * screen the run was started from.
   */
  function Cancel(m: Machine): (r: Machine)
    requires Inv(m) && Running(m.state)
    ensures Inv(r) && Browsing(r.state)
    ensures r.state == m.prevstate && !r.shutter && !r.clk.enabled
    ensures r.clk == m.clk.(enabled := false)
    ensures m.state == RunManual ==>
      r.cfg == m.cfg.(timeMin := m.clk.min, timeSec := m.clk.sec)
    ensures m.state != RunManual ==> r.cfg == m.cfg
    ensures r.remaining == m.remaining && r.disp == m.disp && r.eeprom == m.eeprom
  {
    var stopped := m.(clk := m.clk.(enabled := false), shutter := false);
    var kept := if m.state == RunManual then
                  stopped.(cfg := stopped.cfg.(timeMin := Wrap(m.clk.min), timeSec := Wrap(m.clk.sec)))
                else stopped;
    kept.(state := m.prevstate)
  }

  /** `(bright - 1) & 3`: one level dimmer, from the dimmest back to the brightest. */
  function Dimmer(level: byte): (r: byte)
    requires level < 4
    ensures r < 4 && (r + 1) % 4 == level
  {
    (level - 1) % 4
  }

  /** Dimming four times returns to the same level, through 3, 2, 1, 0 in turn. */
  lemma DimmerCycles(level: byte)
    requires level < 4
    ensures Dimmer(Dimmer(Dimmer(Dimmer(level)))) == level
    ensures Dimmer(3) == 2 && Dimmer(2) == 1 && Dimmer(1) == 0 && Dimmer(0) == 3
  {
  }

  /** The brightness key: one level dimmer, and the comparator follows the table. */
  function Dim(m: Machine): (r: Machine)
    requires Inv(m)
    ensures Inv(r) && r.cfg.bright == Dimmer(m.cfg.bright)
    ensures r.comparator == Display.Brightness(r.cfg.bright)
    ensures r == m.(cfg := r.cfg, comparator := r.comparator) && r.cfg == m.cfg.(bright := r.cfg.bright)
  {
    var level := Dimmer(m.cfg.bright);
    m.(cfg := m.cfg.(bright := level), comparator := Display.Brightness(level))
  }

  /**
   * The keys after the switch, in a run state: the run key cancels; else
   * SELECT switches between time and exposures left, when there are more
   * than one; else SET dims the display.
   */
  function RunKeys(m: Machine, cancel: bool, toggle: bool, dim: bool): (r: Machine)
    requires Inv(m)
    ensures Inv(r)
    ensures !Running(m.state) ==> r == m
    ensures Running(m.state) && cancel ==> r == Cancel(m)
    ensures Running(m.state) && !cancel && toggle && m.cfg.count > 1 ==>
      r == m.(cmode := 1 - m.cmode)
    ensures Running(m.state) && !cancel && !(toggle && m.cfg.count > 1) && dim ==> r == Dim(m)
    ensures Running(m.state) && !cancel && !(toggle && m.cfg.count > 1) && !dim ==> r == m
  {
    if !Running(m.state) then m
    else if cancel then Cancel(m)
    else if toggle && m.cfg.count > 1 then m.(cmode := (m.cmode + 1) % 2)
    else if dim then Dim(m)
    else m
  }

  /** The save key on the brightness screen: Save, and show SAVED for 15 passes. */
  function SaveSettings(m: Machine): (r: Machine)
    requires Inv(m)
    ensures Inv(r) && r.state == Saved && r.remaining == 15
    ensures r.eeprom == Settings.Encode(m.cfg, m.eeprom)
    ensures Settings.Decode(r.eeprom, Settings.DEFAULTS) == m.cfg
    ensures r == m.(eeprom := r.eeprom, state := Saved, remaining := 15)
  {
    Settings.SaveLoadRoundTrip(m.cfg, m.eeprom, Settings.DEFAULTS);
    m.(eeprom := Settings.Encode(m.cfg, m.eeprom), state := Saved, remaining := 15)
  }

  /** ST_SAVED after its screen: one pass fewer, and back to the brightness screen at zero. */
  function SavedCountdown(m: Machine): (r: Machine)
    requires Inv(m) && m.state == Saved
    ensures Inv(r) && r.remaining == m.remaining - 1
    ensures r.state == (if m.remaining == 1 then Bright else Saved)
    ensures r == m.(state := r.state, remaining := r.remaining)
  {
    var remaining := m.remaining - 1;
    m.(remaining := remaining, state := if remaining == 0 then Bright else Saved)
  }

  /** One overflow interrupt between passes of the loop; nothing happens while it is disabled. */
  function Elapse(m: Machine): (r: Machine)
    requires Inv(m)
    ensures Inv(r) && r == m.(clk := r.clk)
    ensures r.clk == (if m.clk.enabled then Ticked(m.clk) else m.clk)
    ensures Quiet(m) ==> Quiet(r)
  {
    if m.clk.enabled then m.(clk := Ticked(m.clk)) else m
  }

  /** TCNT2 moving on between passes of the loop. */
  function Advance(m: Machine, phase: bv8): (r: Machine)
    requires Inv(m)
    ensures Inv(r) && r == m.(clk := m.clk.(phase := phase))
  {
    m.(clk := m.clk.(phase := phase))
  }

  /** n interrupts between two passes. */
  function Elapsed(m: Machine, n: nat): (r: Machine)
    requires Inv(m)
    ensures Inv(r)
    decreases n
  {
    if n == 0 then m else Elapsed(Elapse(m), n - 1)
  }

  /**
   * A running countdown: from an enabled clock counting down from m:s,
   * k <= 60*m + s interrupts change nothing but the clock, which shows
   * what k ticks of the counter give.
   */
  lemma {:induction false} ElapsedCountdown(m: Machine, k: nat)
    requires Inv(m) && m.clk.enabled && m.clk.dir == DOWN && Shown(m.clk) > 0 && k <= Shown(m.clk)
    ensures Elapsed(m, k) == m.(clk := Ticks(m.clk, k))
    decreases k
  {
    if k > 0 {
      var m1 := Elapse(m);
      assert m1 == m.(clk := Ticked(m.clk));
      if k == 1 {
        assert Elapsed(m1, 0) == m1;
        assert Ticks(m.clk, 1) == Ticks(Ticked(m.clk), 0);
      } else {
        assert m1.clk.dir == DOWN && m1.clk.enabled && Shown(m1.clk) == Shown(m.clk) - 1;
        ElapsedCountdown(m1, k - 1);
        assert Ticks(m.clk, k) == Ticks(Ticked(m.clk), k - 1);
      }
    }
  }
}
