/**
 * The one-second clock: the Timer2 overflow interrupt that counts
 * minutes:seconds up or down, and clock_start/clock_stop, which only enable
 * or disable that interrupt. MkII.c, firmware/clock.c and firmware/rtc.c
 * carry the same interrupt body; it is modelled once here.
 */
module Clock {
  import opened Bytes

  /** Direction values of gDirection. */
  const UP: int8 := 1
  const DOWN: int8 := -1
  const STOPPED: int8 := 0

  /**
   * The clock globals: gMin, gSec, gDirection, whether the overflow
   * interrupt is enabled (TOIE2), and the sub-second phase TCNT2 that the
   * display reads for blinking.
   */
  datatype Counter = Counter(min: int8, sec: int8, dir: int8, enabled: bool, phase: bv8)

  /** Seconds shown on the counter, as minutes * 60 + seconds. */
  function Shown(c: Counter): int
  {
    c.min * 60 + c.sec
  }

  /** The counter is on the display's scale: 0..99 minutes and 0..99 seconds. */
  predicate InRange(c: Counter)
  {
    0 <= c.min <= 99 && 0 <= c.sec <= 99
  }

  /** One run of the overflow interrupt body. */
  function Ticked(c: Counter): (r: Counter)
    ensures r.enabled == c.enabled && r.phase == c.phase
    // a stopped counter does not move
    ensures c.dir == STOPPED ==> r == c
    // counting up: one more second, seconds carry into minutes, minutes wrap at 100
    ensures c.dir > 0 && 0 <= c.min <= 99 && 0 <= c.sec <= 59 ==>
      r.dir == c.dir && 0 <= r.min <= 99 && 0 <= r.sec <= 59 &&
      Shown(r) == (Shown(c) + 1) % 6000
    // counting down from 0:00 only stops
    ensures c.dir < 0 && c.min == 0 && c.sec == 0 ==> r == c.(dir := STOPPED)
    // counting down otherwise takes one second off, and stops exactly on reaching 0:00
    ensures c.dir < 0 && InRange(c) && Shown(c) > 0 ==>
      InRange(r) && Shown(r) == Shown(c) - 1 &&
      (r.dir == STOPPED <==> Shown(r) == 0) && (r.dir != STOPPED ==> r.dir == c.dir)
  {
    if c.dir > 0 then
      var sec := WrapSigned(c.sec + 1);
      if sec == 60 then
        var min := WrapSigned(c.min + 1);
        c.(sec := 0, min := if min == 100 then 0 else min)
      else
        c.(sec := sec)
    else if c.dir < 0 then
      if c.sec == 0 then
        if c.min > 0 then c.(sec := 59, min := c.min - 1)
        else c.(dir := STOPPED)
      else
        var sec := WrapSigned(c.sec - 1);
        if sec == 0 && c.min == 0 then c.(sec := sec, dir := STOPPED)
        else c.(sec := sec)
    else
      c
  }

  /** n overflow interrupts in a row. */
  function Ticks(c: Counter, n: nat): Counter
    decreases n
  {
    if n == 0 then c else Ticks(Ticked(c), n - 1)
  }

  /**
   * Counting down from m:s (not 0:00, each within 0..99) stops at 0:00 after
   * exactly 60*m + s ticks, and is still counting down before that.
   */
  lemma {:induction false} CountdownElapses(c: Counter, k: nat)
    requires c.dir == DOWN && InRange(c) && Shown(c) > 0
    requires k < Shown(c)
    ensures Ticks(c, k).dir == DOWN && Shown(Ticks(c, k)) == Shown(c) - k
    ensures Ticks(c, Shown(c)) == c.(min := 0, sec := 0, dir := STOPPED)
    decreases Shown(c)
  {
    var r := Ticked(c);
    if Shown(c) == 1 {
      assert k == 0;
      assert r.min == 0 && r.sec == 0;
      assert Ticks(c, 1) == Ticks(r, 0) == r;
    } else {
      assert r.dir == DOWN && InRange(r) && Shown(r) == Shown(c) - 1;
      CountdownElapses(r, if k == 0 then 0 else k - 1);
      assert Ticks(c, Shown(c)) == Ticks(r, Shown(r));
    }
  }

  /** Counting down from 0:00 (a sub-second delay) stops after one tick. */
  lemma ZeroCountdownStopsAtOnce(c: Counter)
    requires c.dir == DOWN && c.min == 0 && c.sec == 0
    ensures Ticks(c, 1) == c.(dir := STOPPED)
    ensures forall n: nat :: n >= 1 ==> Ticks(c, n) == c.(dir := STOPPED)
  {
    forall n: nat | n >= 1 ensures Ticks(c, n) == c.(dir := STOPPED) {
      StoppedStays(c.(dir := STOPPED), n - 1);
    }
  }

  /** With direction 0 no number of ticks changes anything. */
  lemma {:induction false} StoppedStays(c: Counter, n: nat)
    requires c.dir == STOPPED
    ensures Ticks(c, n) == c
  {
    if n > 0 {
      StoppedStays(Ticked(c), n - 1);
    }
  }

  /**
   * Counting up keeps seconds in 0..59 and minutes in 0..99, and the shown
   * time advances by one second per tick modulo 100 minutes.
   */
  lemma {:induction false} CountUpStaysInRange(c: Counter, n: nat)
    requires c.dir == UP && 0 <= c.min <= 99 && 0 <= c.sec <= 59
    ensures var r := Ticks(c, n);
      r.dir == UP && 0 <= r.min <= 99 && 0 <= r.sec <= 59 && Shown(r) == (Shown(c) + n) % 6000
    decreases n
  {
    if n > 0 {
      var r := Ticked(c);
      CountUpStaysInRange(r, n - 1);
      assert Shown(Ticks(c, n)) == (Shown(r) + n - 1) % 6000;
      assert Shown(r) == (Shown(c) + 1) % 6000;
    }
  }

  /** The clock hardware and globals. */
  class Rtc {
    var gMin: int8
    var gSec: int8
    var gDirection: int8
    /** TOIE2: the overflow interrupt, and with it Tick, is enabled */
    var enabled: bool
    /** TCNT2, the sub-second counter the display blinks from */
    var tcnt2: bv8

    ghost function Value(): Counter
      reads this
    {
      Counter(gMin, gSec, gDirection, enabled, tcnt2)
    }

    /** Power-on state: the globals' initial values and clock_init's 0:00, interrupt off. */
    constructor ()
      ensures Value() == Counter(0, 0, DOWN, false, 0)
    {
      gMin, gSec, gDirection := 0, 0, DOWN;
      enabled, tcnt2 := false, 0;
    }

    /** ISR(TIMER2_OVF_vect) */
    method Tick()
      modifies this
      ensures Value() == Ticked(old(Value()))
    {
      if gDirection > 0 {
        gSec := WrapSigned(gSec + 1);
        if gSec == 60 {
          gSec := 0;
          gMin := WrapSigned(gMin + 1);
          if gMin == 100 {
            gMin := 0;
          }
        }
      } else if gDirection < 0 {
        if gSec == 0 {
          if gMin > 0 {
            gSec := 59;
            gMin := gMin - 1;
          } else {
            gDirection := STOPPED;
          }
        } else {
          gSec := WrapSigned(gSec - 1);
          if gSec == 0 && gMin == 0 {
            gDirection := STOPPED;
          }
        }
      }
    }

    /** clock_start: restart the sub-second phase and enable the interrupt; gDirection is untouched. */
    method Start()
      modifies this
      ensures Value() == old(Value()).(enabled := true, phase := 0)
    {
      tcnt2 := 0;
      enabled := true;
    }

    /** clock_stop: disable the interrupt and nothing else. */
    method Stop()
      modifies this
      ensures Value() == old(Value()).(enabled := false)
    {
      enabled := false;
    }

    /** CLOCK_BLINK_RESET, the `TCNT2 = 0` of EditNum. */
    method ResetBlink()
      modifies this
      ensures Value() == old(Value()).(phase := 0)
    {
      tcnt2 := 0;
    }

    /** The hardware counter moving on between controller cycles. */
    method Advance(phase: bv8)
      modifies this
      ensures Value() == old(Value()).(phase := phase)
    {
      tcnt2 := phase;
    }
  }
}
