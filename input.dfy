/**
 * GetButtons (firmware/input.c, and the identical MkII.c copy): turns one
 * raw sample of the three active-low button lines (1 = released, so 7 means
 * nothing is pressed) into events. A press is reported when it is released;
 * a hold is reported once after REPEAT_THRESHOLD unchanged polls, and the
 * release that follows it is swallowed.
 */
module Input {
  import opened Bytes

  const HOLD: bv8 := 0x10
  const REPEAT_THRESHOLD: byte := 15
  /** The sample with every line released. */
  const IDLE: bv8 := 7

  /** The two static variables of GetButtons. */
  datatype Keys = Keys(prevState: bv8, repeat: byte)

  datatype Polled = Polled(events: bv8, next: Keys)

  /** The statics' initial values: prevState 0xff, repeat 0. */
  const START: Keys := Keys(0xFF, 0)

  /** One call of GetButtons with sample cur. */
  function Poll(k: Keys, cur: bv8): (p: Polled)
    // prevState always ends as the sample
    ensures p.next.prevState == cur
    // after a reported hold: silence, and only an all-released sample re-arms
    ensures k.repeat >= REPEAT_THRESHOLD ==>
      p.events == 0 && (p.next.repeat == 0 <==> cur == IDLE) && (cur != IDLE ==> p.next.repeat == k.repeat)
    // a changed sample reports the lines that went from pressed to released
    ensures k.repeat < REPEAT_THRESHOLD && cur != k.prevState ==>
      p.events == !k.prevState & cur && p.events & HOLD == cur & HOLD & !k.prevState && p.next.repeat == k.repeat
    // an unchanged, not-idle sample counts one more held poll
    ensures k.repeat < REPEAT_THRESHOLD && cur == k.prevState && cur != IDLE ==>
      p.next.repeat == k.repeat + 1 &&
      (p.events != 0 <==> k.repeat + 1 == REPEAT_THRESHOLD)
    // an unchanged idle sample changes nothing
    ensures k.repeat < REPEAT_THRESHOLD && cur == k.prevState && cur == IDLE ==> p == Polled(0, k)
  {
    if k.repeat >= REPEAT_THRESHOLD then
      Polled(0, Keys(cur, if cur == IDLE then 0 else k.repeat))
    else if cur != k.prevState then
      Polled(!k.prevState & cur, Keys(cur, k.repeat))
    else if cur != IDLE then
      var repeat := k.repeat + 1;
      Polled(if repeat == REPEAT_THRESHOLD then HOLD | !(cur & 7) else 0, Keys(k.prevState, repeat))
    else
      Polled(0, k)
  }

  /** The events and final statics of a run of polls. */
  function PollAll(k: Keys, samples: seq<bv8>): (r: (seq<bv8>, Keys))
    ensures |r.0| == |samples|
    decreases |samples|
  {
    if samples == [] then ([], k)
    else
      var p := Poll(k, samples[0]);
      var rest := PollAll(p.next, samples[1..]);
      ([p.events] + rest.0, rest.1)
  }

  /** A sample of the three lines only. */
  predicate Sample(cur: bv8)
  {
    cur & !7 == 0
  }

  /**
   * A tap lies within the three button bits and never carries HOLD; the
   * hold event has HOLD and every bit above the three lines set, and its low
   * three bits are exactly the lines held down.
   */
  lemma EventShapes(k: Keys, cur: bv8)
    requires Sample(cur)
    ensures var p := Poll(k, cur);
      (p.events & HOLD == 0 ==> p.events & !7 == 0 && p.events & 7 == p.events) &&
      (p.events & HOLD != 0 ==> p.events == 0xF8 | (!cur & 7) && p.next.repeat == REPEAT_THRESHOLD)
  {
  }

  /** The first call with every button released reports nothing. */
  lemma FirstPollIsQuiet(cur: bv8)
    requires Sample(cur)
    ensures Poll(START, cur) == Polled(0, Keys(cur, 0))
  {
  }

  /** `n` copies of a sample. */
  function Repeat(cur: bv8, n: nat): (s: seq<bv8>)
    ensures |s| == n && forall i :: 0 <= i < n ==> s[i] == cur
  {
    if n == 0 then [] else [cur] + Repeat(cur, n - 1)
  }

  /**
   * Holding the same lines down: n more unchanged polls report nothing and
   * raise repeat by n, as long as repeat stays below the threshold.
   */
  lemma {:induction false} HeldPollsCount(k: Keys, n: nat)
    requires k.prevState != IDLE && k.repeat + n < REPEAT_THRESHOLD
    ensures PollAll(k, Repeat(k.prevState, n)) == (Repeat(0, n), Keys(k.prevState, k.repeat + n))
    decreases n
  {
    if n > 0 {
      var p := Poll(k, k.prevState);
      assert p == Polled(0, Keys(k.prevState, k.repeat + 1));
      HeldPollsCount(p.next, n - 1);
      assert Repeat(k.prevState, n)[1..] == Repeat(k.prevState, n - 1);
      assert Repeat(0, n) == [0] + Repeat(0, n - 1);
    }
  }

  /**
   * From rest (all released, repeat 0), pressing lines s and keeping them
   * down for 16 polls (the press edge plus REPEAT_THRESHOLD unchanged polls)
   * reports exactly one event, the HOLD on the last poll; the release that
   * follows reports nothing and re-arms the detector.
   */
  lemma HoldReportedOnce(s: bv8)
    requires Sample(s) && s != IDLE
    ensures var r := PollAll(Keys(IDLE, 0), Repeat(s, 16) + [IDLE]);
      r.1 == Keys(IDLE, 0) &&
      (forall i :: 0 <= i < 15 ==> r.0[i] == 0) &&
      r.0[15] == 0xF8 | (!s & 7) && r.0[16] == 0
  {
    var k0 := Keys(IDLE, 0);
    var k14 := Keys(s, 14);
    var ev: bv8 := 0xF8 | (!s & 7);
    // the last held poll and the release
    assert Poll(k14, s) == Polled(ev, Keys(s, 15));
    assert Poll(Keys(s, 15), IDLE) == Polled(0, k0);
    PollOne(k14, s);
    PollOne(Keys(s, 15), IDLE);
    PollAllAppend(k14, [s], [IDLE]);
    var tail := PollAll(k14, [s] + [IDLE]);
    assert tail == ([ev] + [0], k0);
    // fourteen silent held polls before them
    HeldPollsCount(Keys(s, 0), 14);
    PollAllAppend(Keys(s, 0), Repeat(s, 14), [s] + [IDLE]);
    var mid := PollAll(Keys(s, 0), Repeat(s, 14) + ([s] + [IDLE]));
    assert mid == (Repeat(0, 14) + tail.0, k0);
    // and the press edge first
    assert Poll(k0, s) == Polled(0, Keys(s, 0));
    PollOne(k0, s);
    PollAllAppend(k0, [s], Repeat(s, 14) + ([s] + [IDLE]));
    assert Repeat(s, 16) + [IDLE] == [s] + (Repeat(s, 14) + ([s] + [IDLE])) by {
      RepeatSplit(s, 16);
    }
    var all := PollAll(k0, Repeat(s, 16) + [IDLE]);
    assert all == ([0] + mid.0, k0);
    assert all.0 == [0] + Repeat(0, 14) + [ev, 0];
  }

  /**
   * Pressing lines s for n polls (n <= 15, so no hold) and releasing them
   * reports exactly one event, on the release: the lines that were down.
   */
  lemma TapReportedOnRelease(s: bv8, n: nat)
    requires Sample(s) && s != IDLE && 1 <= n <= 15
    ensures var r := PollAll(Keys(IDLE, 0), Repeat(s, n) + [IDLE]);
      (forall i :: 0 <= i < n ==> r.0[i] == 0) &&
      r.0[n] == !s & 7 && r.0[n] & HOLD == 0 && r.1 == Keys(IDLE, n - 1)
  {
    var k0 := Keys(IDLE, 0);
    var k1 := Keys(s, 0);
    var kn := Keys(s, n - 1);
    var release: bv8 := !s & 7;
    assert Poll(k0, s) == Polled(0, k1);
    PollOne(k0, s);
    HeldPollsCount(k1, n - 1);
    assert Poll(kn, IDLE) == Polled(release, Keys(IDLE, n - 1));
    PollOne(kn, IDLE);
    PollAllAppend(k1, Repeat(s, n - 1), [IDLE]);
    var mid := PollAll(k1, Repeat(s, n - 1) + [IDLE]);
    assert mid == (Repeat(0, n - 1) + [release], Keys(IDLE, n - 1));
    PollAllAppend(k0, [s], Repeat(s, n - 1) + [IDLE]);
    assert Repeat(s, n) + [IDLE] == [s] + (Repeat(s, n - 1) + [IDLE]);
    var all := PollAll(k0, Repeat(s, n) + [IDLE]);
    assert all == ([0] + (Repeat(0, n - 1) + [release]), Keys(IDLE, n - 1));
    assert release & HOLD == 0;
  }

  /**
   * An ordinary release does not clear repeat: a tap after n held polls
   * leaves repeat at n - 1, so a second press of the same lines reports its
   * HOLD after only 16 - n unchanged polls.
   */
  lemma {:induction false} RepeatCarriesOver(s: bv8, n: nat)
    requires Sample(s) && s != IDLE && 1 <= n <= 15
    ensures var k := PollAll(Keys(IDLE, 0), Repeat(s, n) + [IDLE]).1;
      var r := PollAll(k, Repeat(s, 17 - n));
      r.0[16 - n] & HOLD != 0 && forall i :: 0 <= i < 16 - n ==> r.0[i] == 0
  {
    TapReportedOnRelease(s, n);
    var k := Keys(IDLE, n - 1);
    assert Poll(k, s) == Polled(0, Keys(s, n - 1));
    HeldPollsCount(Keys(s, n - 1), 15 - n);
    var kh := Keys(s, 14);
    assert Poll(kh, s).events == 0xF8 | (!s & 7);
    PollAllAppend(k, [s], Repeat(s, 15 - n) + [s]);
    PollAllAppend(Keys(s, n - 1), Repeat(s, 15 - n), [s]);
    assert Repeat(s, 17 - n) == [s] + (Repeat(s, 15 - n) + [s]) by {
      RepeatSplit(s, 17 - n);
    }
    var r := PollAll(k, Repeat(s, 17 - n));
    assert r.0 == [0] + (Repeat(0, 15 - n) + [0xF8 | (!s & 7)]);
  }

  lemma {:induction false} RepeatSplit(s: bv8, n: nat)
    requires n >= 2
    ensures Repeat(s, n) == [s] + (Repeat(s, n - 2) + [s])
  {
    assert Repeat(s, n) == [s] + Repeat(s, n - 1);
    assert Repeat(s, n - 1) == Repeat(s, n - 2) + [s];
  }

  /** Polling a single sample. */
  lemma PollOne(k: Keys, cur: bv8)
    ensures PollAll(k, [cur]) == ([Poll(k, cur).events], Poll(k, cur).next)
  {
    assert [cur][1..] == [];
    assert PollAll(Poll(k, cur).next, []) == ([], Poll(k, cur).next);
    assert [Poll(k, cur).events] + [] == [Poll(k, cur).events];
  }

  /** Polling a concatenation is polling the parts in turn. */
  lemma {:induction false} PollAllAppend(k: Keys, a: seq<bv8>, b: seq<bv8>)
    ensures var ra := PollAll(k, a); var rb := PollAll(ra.1, b);
      PollAll(k, a + b) == (ra.0 + rb.0, rb.1)
    decreases |a|
  {
    if a == [] {
      assert a + b == b;
      assert PollAll(k, a) == ([], k);
      assert [] + PollAll(k, b).0 == PollAll(k, b).0;
    } else {
      var p := Poll(k, a[0]);
      assert (a + b)[0] == a[0] && (a + b)[1..] == a[1..] + b;
      PollAllAppend(p.next, a[1..], b);
      var tail := PollAll(p.next, a[1..]);
      var rb := PollAll(tail.1, b);
      assert PollAll(k, a + b) == ([p.events] + PollAll(p.next, a[1..] + b).0, PollAll(p.next, a[1..] + b).1);
      assert PollAll(p.next, a[1..] + b) == (tail.0 + rb.0, rb.1);
      assert PollAll(k, a) == ([p.events] + tail.0, tail.1);
      assert [p.events] + (tail.0 + rb.0) == ([p.events] + tail.0) + rb.0;
    }
  }

  /** GetButtons with its static variables. */
  class ButtonReader {
    var prevState: bv8
    var repeat: byte

    ghost function State(): Keys
      reads this
    {
      Keys(prevState, repeat)
    }

    constructor ()
      ensures State() == START
    {
      prevState, repeat := 0xFF, 0;
    }

    /** GetButtons; `cur` is the raw sample of the button lines. */
    method GetButtons(cur: bv8) returns (events: bv8)
      modifies this
      ensures Polled(events, State()) == Poll(old(State()), cur)
    {
      if repeat >= REPEAT_THRESHOLD {
        prevState := cur;
        if cur == IDLE {
          repeat := 0;
        }
        return 0;
      }
      if cur != prevState {
        var pressed := !prevState & cur;
        prevState := cur;
        return pressed;
      } else if cur != IDLE {
        repeat := repeat + 1;
        if repeat == REPEAT_THRESHOLD {
          return HOLD | !(cur & 7);
        }
      }
      return 0;
    }
  }
}
