# Astro timer firmware, modelled in Dafny

The astro timer is a small AVR-based exposure controller for
astrophotography. It opens a camera shutter for a programmed exposure time,
waits a programmed delay, repeats for a programmed count of exposures, and
can raise the mirror first (mirror lock-up, "MLU"). A four-digit
seven-segment display shows the settings and the running clock, three
buttons (and, on the Mk IV board, a rotary encoder) edit them, and the
settings survive power-off in EEPROM. Two firmware generations are covered:
the Mk IV firmware in `firmware/` and the single-file MkII firmware
`MkII.c`.

The model is split the way the firmware is:

- `bytes.dfy` (`Bytes`): 8-bit unsigned and signed wrap-around, used
  wherever the C code stores into `uint8_t` / `int8_t`.
- `clock.dfy` (`Clock`): the one-second Timer2 overflow interrupt that
  counts `gMin:gSec` up or down. `firmware/clock.c`, `firmware/rtc.c` and
  `MkII.c` carry the same routine; one model (`Ticked`, class `Rtc`)
  stands for all three. `TCNT2` — the sub-second timer the display
  blinks on — is the `phase` field.
- `digits.dfy` (`Digits`): the repeated-subtraction digit splitters
  `IntToDigs2` and `IntToDigs4`, as loops.
- `display.dfy` (`Display`): the five-byte display buffer and the segment
  tables of both boards, `DisplayNum`, both `DisplayAlnum` variants and the
  brightness comparator. Every segment-table lookup is at an index proved
  to be at most 9.
- `input.dfy` (`Input`): `GetButtons`, the debouncing/hold detector of
  `firmware/input.c` and `MkII.c`, over its two static variables.
- `settings.dfy` (`Settings`): the seven settings, the EEPROM layout,
  `loadbyte`, `Save` and `Load` of both firmwares over an EEPROM array.
- `timer.dfy` (`Timer`): the state set shared by both firmwares, the
  abstract machine (`Machine`: state, previous state, remaining exposures,
  display mode, settings, EEPROM, clock, shutter, display buffer,
  brightness comparator) and the transitions both firmwares perform alike
  (starting a run, `InitRun`, ending an exposure, mirror lock-up, the wait
  period, cancelling, dimming, saving).
- `mk4.dfy` (`MkIV`) and `mk2.dfy` (`MkII`): each firmware's `EditNum`, its
  screens, one function per `switch` case, the `goto newstate`
  re-dispatch as a recursion bounded by a rank that every re-dispatch
  lowers, the key handling of a running exposure, and a `Controller`
  class whose fields are `main`'s locals and whose methods update them.
  Each `Controller` method that stands for a whole step of `main` is
  proved to move the abstract machine (`Abs()`) exactly as the matching
  pure function says. The smaller ones are specified on the fields they
  touch: `EditNum` on the settings store and `TCNT2`, `LoadDelay` on the
  clock and the state, and the `Show…` methods on the display buffer,
  which becomes the matching screen function of the old machine. The
  lemmas then state the firmware's behaviour about those functions.

The shutter line, the clock-interrupt enable (`TIMSK2`'s `TOIE2`) and the
brightness comparator (`OCR0B` / `OCR0A`) are fields of the model.

## Model

| member | source | states |
|---|---|---|
| Bytes.Wrap | firmware/main.c:24-32 | storing into a `uint8_t` keeps values in 0..255 and adds 256 to values in -256..-1 |
| Bytes.Signed | firmware/main.c:64-65 | a byte read as `int8_t` converts back to the same byte; bytes below 128 keep their value |
| Bytes.WrapSigned | firmware/main.c:64-67 | storing into an `int8_t` leaves every value in -128..127 unchanged |
| Clock.Ticks | firmware/clock.c:50-79 | n runs of the interrupt routine; its meaning is stated by `Clock.CountdownElapses`, `Clock.StoppedStays` and `Clock.CountUpStaysInRange` |
| Clock.Ticked | firmware/clock.c:50-79 | one tick leaves a stopped clock as it is; counting up stays within 0..99 minutes and 0..59 seconds; a down-counter at 0:00 stops at once; a running down-counter stops exactly when the displayed time reaches zero |
| Clock.CountdownElapses | firmware/clock.c:61-77 | a down-counter showing t seconds still runs, showing t-k, after k < t ticks, and after t ticks shows 0:00 and has stopped |
| Clock.ZeroCountdownStopsAtOnce | firmware/clock.c:63-71 | a down-counter started at 0:00 stops on the first tick and stays stopped |
| Clock.StoppedStays | firmware/clock.c:50-79 | any number of ticks leave a stopped clock unchanged |
| Clock.CountUpStaysInRange | firmware/clock.c:52-60 | counting up for n ticks stays in range and advances the shown time by n seconds, modulo 100 minutes |
| Clock.Rtc.constructor | firmware/clock.c:6-7 | the clock starts at 0:00, counting down, disabled |
| Clock.Rtc.Tick | firmware/rtc.c:38-66 | the interrupt routine (identical in `firmware/clock.c:50-79` and `MkII.c:121-153`) moves the clock by exactly one `Ticked` step |
| Clock.Rtc.Start | firmware/rtc.c:22-26 | `clock_start` (the same in `firmware/clock.c:37-41` and `MkII.c:78-82`) clears `TCNT2` and enables the interrupt, nothing else |
| Clock.Rtc.Stop | firmware/rtc.c:28-30 | `clock_stop` (the same in `firmware/clock.c:43-45` and `MkII.c:84-86`) only disables the interrupt |
| Clock.Rtc.ResetBlink | firmware/clock.h:14 | `CLOCK_BLINK_RESET` only clears `TCNT2` |
| Clock.Rtc.Advance | firmware/clock.h:13 | the free-running `TCNT2` takes any value between loop passes, nothing else changes |
| Digits.IntToDigs2 | firmware/display.c:89-104 | for 0..99 both digits are at most 9 and 10·tens + ones = n; a negative input gives 0,0; in general tens = n/10 wrapped to 8 bits, ones = n mod 10; `MkII.c:155-170` is the same loop |
| Digits.IntToDigs4 | MkII.c:172-189 | for 0..9999 all four digits are at most 9 and recombine to n; they are the thousands, hundreds, tens and ones of n |
| Digits.SplitHundreds | MkII.c:172-189 | the first two loops leave exactly n/1000 and n mod 1000 / 100 |
| Display.TablesAreGlyphTables | firmware/display.c:14-25 | both boards' tables hold ten digit glyphs, none of them blank with or without the decimal point |
| Display.WriteNum | firmware/display.c:137-153 | `DisplayNum` writes exactly slots pos and pos+1 and leaves the others alone |
| Display.NumSlots | firmware/display.c:137-153 | the two slot patterns `DisplayNum` writes; `Display.NumSlotsShowDigits`, `Display.BlinkBlanksBoth`, `Display.StripBlanksExactly` and `Display.DecimalPointToggles` state what they show |
| Display.NumSlotsShowDigits | firmware/display.c:144-151 | unblinked and unstripped, the two slots are the glyphs of the tens and ones digits of num, both indices at most 9 |
| Display.BlinkBlanksBoth | firmware/display.c:141-143 | while `TCNT2 & blink_mask` is set, both slots are blank |
| Display.StripBlanksExactly | firmware/display.c:146-150 | the tens slot is blank exactly when strip bit 0 is set and num < 10; the ones slot exactly when strip bit 1 is set and num = 0 |
| Display.PointInjective | firmware/display.c:127 | toggling the decimal point never merges two glyphs |
| Display.DecimalPointToggles | firmware/display.c:148-151 | dp bit 1 toggles the point of the tens slot, dp bit 0 that of the ones slot, and nothing else |
| Display.WriteAlnum | firmware/display.c:129-135 | the Mk IV `DisplayAlnum` yields a five-slot buffer; its contents are stated by `Display.AlnumWritesEverySlot` |
| Display.WriteAlnumMk2 | MkII.c:285-291 | the MkII `DisplayAlnum` yields a five-slot buffer; its contents are stated by `Display.AlnumMk2WritesEverySlot` |
| Display.AlnumWritesEverySlot | firmware/display.c:129-135 | the Mk IV `DisplayAlnum` overwrites every slot (its result does not depend on the old buffer) and shows num at slots 2-3, stripping a leading zero unless blinking |
| Display.AlnumMk2WritesEverySlot | MkII.c:285-291 | the MkII `DisplayAlnum` overwrites every slot and shows num at slots 3-4, stripping a leading zero unless blinking |
| Display.Brightness | firmware/display.c:27 | the comparator value is one of 255, 85, 28, 9 |
| Display.BrightnessFalls | firmware/display.c:27 | a higher level gives a strictly smaller comparator value (a dimmer display) |
| Display.Screen.constructor | firmware/display.c:53-64 | the buffer starts all blank and the comparator holds the boot level's value |
| Display.Screen.DisplayNum | firmware/display.c:137-153 | the buffer becomes `WriteNum` of the old buffer; MkII.c's copy (`MkII.c:247-261`) is the call with dp = 0 |
| Display.Screen.DisplayAlnum | firmware/display.c:129-135 | the buffer becomes `WriteAlnum` of the old buffer |
| Display.Screen.DisplayAlnumMk2 | MkII.c:285-291 | the buffer becomes `WriteAlnumMk2` of the old buffer |
| Display.Screen.SetSlot | firmware/main.c:128 | `display[pos] = pattern` changes only that slot |
| Display.Screen.SetBrightness | firmware/display.c:155-158 | `display_set_brightness` loads the table value for the level |
| Input.Poll | firmware/input.c:15-42 | prevState always becomes the sample; after a hold, nothing is reported until all buttons are up; a changed sample reports the lines newly released; an unchanged pressed sample counts and reports once, at the 15th count; an unchanged idle sample changes nothing; `MkII.c:205-232` is the same routine |
| Input.PollAll | firmware/input.c:15-42 | one event per sample, from n successive polls; `Input.HeldPollsCount`, `Input.HoldReportedOnce`, `Input.TapReportedOnRelease` and `Input.RepeatCarriesOver` state what is reported |
| Input.EventShapes | firmware/input.c:31-37 | a tap lies within the three button bits and lacks HOLD; a hold event is HOLD with the upper bits set and the held buttons in the low bits |
| Input.FirstPollIsQuiet | firmware/input.c:17-33 | the first poll after reset reports nothing and records the sample |
| Input.HeldPollsCount | firmware/input.c:34-39 | n unchanged pressed polls below the threshold report nothing and count n |
| Input.HoldReportedOnce | firmware/input.c:22-39 | holding a button for 16 polls and releasing reports nothing for 15 polls, a hold on the 16th, and nothing on the release, which re-arms the detector |
| Input.TapReportedOnRelease | firmware/input.c:30-33 | pressing for 1..15 polls reports nothing while down and the released buttons, without HOLD, on release |
| Input.RepeatCarriesOver | firmware/input.c:18-39 | the hold counter is not cleared by a release before the threshold: after a tap of n polls, the next press reports its hold on its (17-n)th poll instead of its 16th |
| Input.ButtonReader.constructor | firmware/input.c:17-18 | the statics start at prevState 0xff, repeat 0 |
| Input.ButtonReader.GetButtons | MkII.c:205-232 | the call returns `Poll`'s event and leaves the statics at `Poll`'s next state |
| Settings.Address | firmware/settings.c:23-32 | every setting has an address below 7 |
| Settings.AddressInjective | firmware/settings.c:23-32 | no two settings share an EEPROM address |
| Settings.With | firmware/settings.c:4-8 | writing one setting sets it and leaves the other six alone |
| Settings.InRangeByField | firmware/settings.c:34-43 | a configuration is in range exactly when every setting is at most its `Load` limit |
| Settings.LoadByte | firmware/settings.c:15-21 | the loaded byte is within the limit or is the default |
| Settings.LoadByteAccepts | firmware/settings.c:15-21 | with default ≤ max, the result is ≤ max, and it is the stored byte exactly when that byte is ≤ max or equals the default |
| Settings.LoadByteMk2 | MkII.c:320-326 | the MkII loader never returns 0xFF unless that is the default |
| Settings.Encode | firmware/settings.c:23-32 | `Save` keeps the EEPROM's size; where each byte goes is stated by `Settings.EncodePlacesFields` |
| Settings.Decode | firmware/settings.c:34-43 | `Load`; stated by `Settings.DecodeInRange`, `Settings.SaveLoadRoundTrip`, `Settings.SaveLoadResets` and `Settings.ErasedLoadsDefaults` |
| Settings.DecodeMk2 | MkII.c:339-348 | MkII `Load` as written; stated by `Settings.SaveLoadRoundTripMk2`, `Settings.ErasedLoadsDefaultsMk2` and `Settings.UncheckedLoadEscapes` |
| Settings.EncodePlacesFields | firmware/settings.c:23-32 | after `Save` each setting is at its address and every byte from 7 on is unchanged |
| Settings.DecodeInRange | firmware/settings.c:34-43 | `Load` always yields an in-range configuration, whatever the EEPROM holds |
| Settings.DefaultsInRange | firmware/settings.c:34-43 | both firmwares' defaults are within the `Load` limits |
| Settings.SaveLoadRoundTrip | firmware/settings.c:23-43 | loading what `Save` wrote gives back every in-range configuration |
| Settings.SaveLoadResets | firmware/settings.c:34-43 | an out-of-range setting that was saved loads back as its default |
| Settings.ErasedLoadsDefaults | firmware/settings.c:34-43 | an erased EEPROM loads 3:00 exposure, 0:05 delay, count 10, MLU 0, brightness 2 |
| Settings.ErasedLoadsDefaultsMk2 | MkII.c:339-348 | an erased EEPROM loads the MkII defaults 0:00, 0:00, count 1, MLU 0, brightness 1 |
| Settings.SaveLoadRoundTripMk2 | MkII.c:328-348 | MkII `Load` after `Save` gives back every setting except a 0xFF, which becomes its default |
| Settings.UncheckedLoadEscapes | MkII.c:320-348 | as written, MkII `Load` accepts count 150 and brightness 7 from the EEPROM: out of range, with a tens digit of 15 |
| Settings.DecodeMk2Checked | MkII.c:339-348 | the range-checked MkII loader always yields an in-range configuration, gives the MkII defaults on an erased EEPROM and agrees with the as-written loader wherever that one stays in range |
| Settings.Store.constructor | firmware/settings.c:4-8 | the globals start at 0:00, 0:00, count 1, MLU 0, brightness 1 |
| Settings.Store.Save | firmware/settings.c:23-32 | the EEPROM becomes `Encode` of the globals over the old EEPROM (`MkII.c:328-337` writes the same layout) |
| Settings.Store.Load | firmware/settings.c:34-43 | the globals become `Decode` of the EEPROM |
| Settings.Store.LoadMk2 | MkII.c:339-348 | the globals become the unchecked MkII decoding of the EEPROM |
| Settings.Store.Put | firmware/main.c:17-47 | `EditNum`'s store through its pointer changes one setting only |
| Timer.Ordinal | firmware/main.c:49-62 | the states are numbered 0..17 in `enum State` order |
| Timer.StatesPartition | firmware/main.c:49-62 | the enum splits into menu (< `ST_BRIGHT`), the two option states, edit states and run states (≥ `ST_RUN_PRIME`), each state in exactly one group |
| Timer.Next | firmware/main.c:125-183 | SELECT moves from menu screen to a different menu screen or the brightness screen |
| Timer.SelectCycles | firmware/main.c:125-183 | five SELECT presses return to the same screen, four never do from a menu screen |
| Timer.EditOf | firmware/main.c:125-160 | SET on a menu screen enters an edit state |
| Timer.Committed | firmware/main.c:199-242 | committing an edit goes to the next edit state or back to a menu screen |
| Timer.EditChainsReturn | firmware/main.c:199-242 | time and delay edit minutes then seconds and return to their own screen; count and MLU return at once |
| Timer.Limit | firmware/main.c:199-242 | each editor's limit is 60 or 100 |
| Timer.LimitWithinRange | firmware/main.c:199-242 | every value an editor accepts passes `Load`'s check; for all but the MLU editor the two agree exactly |
| Timer.Boot | firmware/main.c:87-105 | the machine starts in `ST_TIME`, shutter closed, clock disabled, invariant holding |
| Timer.StartRun | firmware/main.c:114-120 | START on a menu screen records the screen, loads the count, resets the display mode and enters `ST_RUN_PRIME`; otherwise nothing changes |
| Timer.Browse | firmware/main.c:125-160 | SELECT goes to the next screen, otherwise SET enters that screen's editor; nothing else changes |
| Timer.InitRun | firmware/main.c:64-85 | the exposure time is loaded into the clock; zero time counts up in `ST_RUN_MANUAL`, otherwise down in `ST_RUN_AUTO`; the shutter opens and the clock starts |
| Timer.ExposureDone | firmware/main.c:253-276 | the shutter closes; on the last exposure the run returns to the saved screen with the clock stopped, otherwise the delay is loaded, counting down, into `ST_WAIT` with the count lowered (0 means unlimited) |
| Timer.RaiseMirror | firmware/main.c:243-248 | with MLU set, priming raises the mirror (shutter on) and enters `ST_MLU_PRIME` |
| Timer.PrimeMlu | firmware/main.c:288-295 | the shutter drops and the clock counts down the MLU seconds in `ST_MLU_WAIT` |
| Timer.MluDone | firmware/main.c:296-305 | when the MLU wait ends, the exposure starts as `InitRun` |
| Timer.WaitDone | firmware/main.c:306-324 | when the delay ends, the clock stops and the run re-primes |
| Timer.Cancel | firmware/main.c:329-340 | cancelling returns to the saved screen, shutter and clock off; a count-up run keeps its elapsed time as the new exposure time |
| Timer.Dimmer | firmware/main.c:344-348 | `(bright - 1) & 3` is below 4 and one step below the old level, modulo 4 |
| Timer.DimmerCycles | firmware/main.c:344-348 | four dims return to the same level: 3→2→1→0→3 |
| Timer.Dim | firmware/main.c:344-348 | dimming changes only the brightness setting and loads its comparator value |
| Timer.RunKeys | firmware/main.c:327-349 | while running, START cancels, else SELECT toggles the display mode when count > 1, else SET dims; outside a run keys change nothing |
| Timer.SaveSettings | firmware/main.c:184-188 | saving writes the settings to the EEPROM, from which `Load` gives them back, and shows SAVE for 15 passes |
| Timer.SavedCountdown | firmware/main.c:190-198 | each pass on the SAVE screen lowers the counter and returns to the brightness screen at 0 |
| Timer.Elapse | firmware/clock.c:50-79 | the interrupt ticks an enabled clock and leaves a disabled one alone; nothing else changes |
| Timer.Advance | firmware/clock.h:13 | only `TCNT2` changes between passes |
| Timer.Elapsed | firmware/clock.c:50-79 | any number of interrupts keep the invariant |
| Timer.ElapsedCountdown | firmware/clock.c:61-77 | k interrupts on an enabled down-counter are k clock ticks |
| MkIV.Edit | firmware/main.c:17-47 | no key and no turn is a no-op; the result reports commit exactly for SET or encoder click; any key or turn leaves the value below the limit |
| MkIV.Limited | firmware/main.c:40-44 | the button path wraps any value at or past the limit to 0 |
| MkIV.Clamp | firmware/main.c:33-39 | the encoder path result is below the limit and keeps an in-range value |
| MkIV.EncoderClamps | firmware/main.c:33-39 | a turn to a value in -55..200 clamps it into 0..max-1 |
| MkIV.EncoderGuardWindow | firmware/main.c:33-39 | the `> 200` guard gives the clamped value exactly when num + diff is in -55..200; beyond 200 it gives 0, below -55 it gives max-1 |
| MkIV.Tapped | firmware/main.c:24-29 | the SELECT key's effect; stated by `MkIV.ButtonsWrap` |
| MkIV.Stepped | firmware/main.c:30-32 | the START key's effect; stated by `MkIV.ButtonsWrap` |
| MkIV.ButtonsWrap | firmware/main.c:24-44 | SELECT adds 10 (HOLD clears), START adds 1, and a result at or past the limit wraps to 0 |
| MkIV.Pair | firmware/main.c:126-128 | a menu pair shows hi at slots 0-1, lo at slots 2-3 and the extra glyph at slot 4 |
| MkIV.MenuScreen | firmware/main.c:125-242 | the time and delay screens show minutes at slots 0-1 (leading zeros stripped while browsing) and seconds at 2-3, with the colon for the time and the decimal point after the delay's minutes, and blank the field being edited while `TCNT2` bit 6 is set; the count and MLU screens show C or L, a blank, and the value at 2-3 |
| MkIV.EditPos | firmware/main.c:199-242 | the field an editor changes is the minutes pair (slot 0) or the seconds or value pair (slot 2) |
| MkIV.EditBlinksField | firmware/main.c:199-242 | in an editor the edited pair is blank exactly while `TCNT2` bit 6 is set, and on the time and delay screens the other pair never is |
| MkIV.RunScreen | firmware/main.c:277-287 | the colon blinks with bit 7 of `TCNT2`; in time mode slots 0-3 show the clock's minutes and seconds with the point after the seconds, in count mode C, a blank and the exposures remaining |
| MkIV.WaitScreen | firmware/main.c:306-316 | slot 4 stays blank; in time mode slots 0-3 show the delay's minutes and seconds with a point after the minutes that blinks with bit 7 of `TCNT2`, in count mode C, a blinking point and the exposures remaining |
| MkIV.SavedScreen | firmware/main.c:190-195 | the screen spells SAVE |
| MkIV.OnBrowse | firmware/main.c:125-160 | a menu pass draws the screen and moves as `Browse` |
| MkIV.OnBright | firmware/main.c:175-189 | the brightness screen goes only to itself, `ST_TIME` or `ST_SAVED`, and never touches the shutter or clock |
| MkIV.OnBrightKeys | firmware/main.c:177-188 | SELECT goes to `ST_TIME`; else a turn changes the level by -diff mod 4 without reloading the comparator; else SET dims; else START or a click saves; otherwise nothing changes |
| MkIV.OnSaved | firmware/main.c:190-198 | the SAVE screen counts down and returns to brightness at 0 |
| MkIV.EditKeepsRange | firmware/main.c:199-242 | editing an in-range configuration keeps it in range |
| MkIV.OnEdit | firmware/main.c:199-242 | an edit pass stores `Edit`'s value in the edited setting, advances on commit and resets `TCNT2` on any input |
| MkIV.OnRunPrime | firmware/main.c:243-252 | priming raises the mirror when MLU is set, otherwise starts the exposure and re-dispatches |
| MkIV.OnRun | firmware/main.c:253-287 | an elapsed automatic exposure ends as `ExposureDone`; otherwise the run screen is shown |
| MkIV.OnMlu | firmware/main.c:288-305 | mirror lock-up drops the shutter and counts MLU seconds, then starts the exposure |
| MkIV.OnWait | firmware/main.c:306-324 | the wait screen is shown; an elapsed delay stops the clock and re-primes |
| MkIV.OnCase | firmware/main.c:122-325 | one `switch` pass keeps the invariant, lowers the rank when it re-dispatches, and re-dispatches only between run states |
| MkIV.OnSettingsCase | firmware/main.c:125-242 | a settings pass never enters a run, nor touches the shutter or the clock enable |
| MkIV.OnOptionCase | firmware/main.c:175-242 | the option and edit passes never enter a run |
| MkIV.OnRunCase | firmware/main.c:243-324 | a run pass keeps the settings; it stays in a run or returns to the saved screen with shutter and clock off; a count-up run only redraws |
| MkIV.Dispatched | firmware/main.c:122-325 | `goto newstate` terminates with the invariant kept |
| MkIV.Hops | firmware/main.c:122-325 | at most three `switch` passes per loop iteration |
| MkIV.Step | firmware/main.c:108-349 | one main-loop iteration keeps the invariant |
| MkIV.Steps | firmware/main.c:108-349 | any sequence of iterations keeps the invariant |
| MkIV.Redispatch | firmware/main.c:122-325 | the dispatch is the case function repeated while it asks for `goto newstate` |
| MkIV.DispatchedQuiet | firmware/main.c:122-325 | outside a run the clock stays disabled and the shutter closed |
| MkIV.StepQuiet | firmware/main.c:108-349 | the same over a whole iteration |
| MkIV.MenuKeys | firmware/main.c:125-160 | without START, SELECT moves to the next screen and SET enters the editor, settings untouched |
| MkIV.EditKeys | firmware/main.c:199-242 | in an edit state the iteration stores `Edit`'s value and advances exactly on SET or click |
| MkIV.BrightSelect | firmware/main.c:177-178 | SELECT on the brightness screen returns to `ST_TIME` with settings untouched |
| MkIV.BrightTurn | firmware/main.c:179-180 | turning the encoder changes the level but not the comparator |
| MkIV.BrightKeys | firmware/main.c:181-188 | SET dims and reloads the comparator; START or click saves what `Load` will give back |
| MkIV.SavedCountsDown | firmware/main.c:190-198 | k ≤ remaining iterations on the SAVE screen lower the counter by k and return to brightness exactly at 0 |
| MkIV.SavedLasts15 | firmware/main.c:184-198 | after saving, SAVE stays for 14 iterations and the 15th returns to brightness |
| MkIV.ExposingStays | firmware/main.c:253-287 | a running exposure only redraws, in one pass |
| MkIV.PrimeDispatch | firmware/main.c:243-252 | priming takes one pass with MLU set, two without |
| MkIV.StartRuns | firmware/main.c:114-120 | START on a menu screen starts a run: mirror first when MLU is set, otherwise the exposure with the programmed time and direction |
| MkIV.DispatchedRun | firmware/main.c:243-324 | a run dispatch keeps the settings and stays in a run or returns to the saved screen |
| MkIV.CancelReturns | firmware/main.c:329-340 | START during a run returns to the saved screen with everything off, freezing a count-up time |
| MkIV.ToggleNeedsCount | firmware/main.c:341-343 | SELECT toggles the display mode only when count > 1 |
| MkIV.ExposureEnds | firmware/main.c:253-276 | at the end of an exposure the last one returns to the menu, the others load the delay |
| MkIV.WaitRestarts | firmware/main.c:306-324 | when the delay ends the next exposure, or its mirror lock-up, starts in the same iteration, after two or three passes |
| MkIV.MirrorLockUp | firmware/main.c:288-305 | the mirror wait counts MLU seconds and then opens the shutter for the exposure |
| MkIV.Controller.constructor | firmware/main.c:87-105 | boot loads the settings, sets the comparator and starts in `ST_TIME` |
| MkIV.Controller.EditNum | firmware/main.c:17-47 | the setting becomes `Edit`'s value, the commit flag is returned and `TCNT2` is reset on any input |
| MkIV.Controller.InitRun | firmware/main.c:64-85 | the state moves as `Timer.InitRun` |
| MkIV.Controller.ShowPair | firmware/main.c:126-128 | the buffer becomes `Pair` |
| MkIV.Controller.ShowMenu | firmware/main.c:125-242 | the buffer becomes `MenuScreen` of the machine: the settings pair of the current screen, its blinking edited field and its separator |
| MkIV.Controller.Browse | firmware/main.c:125-160 | the state moves as `OnBrowse` |
| MkIV.Controller.EditSetting | firmware/main.c:199-242 | the state moves as `OnEdit` |
| MkIV.Controller.DimDisplay | firmware/main.c:344-348 | the state moves as `Dim` |
| MkIV.Controller.SaveAll | firmware/main.c:184-188 | the state moves as `SaveSettings` |
| MkIV.Controller.AdjustBright | firmware/main.c:175-189 | the state moves as `OnBright` |
| MkIV.Controller.BrightKeys | firmware/main.c:177-188 | the state moves as `OnBrightKeys` |
| MkIV.Controller.ShowSaved | firmware/main.c:190-198 | the state moves as `OnSaved` |
| MkIV.Controller.Prime | firmware/main.c:243-252 | the state moves as `OnRunPrime` |
| MkIV.Controller.ShowRun | firmware/main.c:277-287 | the buffer becomes `RunScreen`: the elapsing time or the exposures remaining, with the blinking colon |
| MkIV.Controller.EndExposure | firmware/main.c:253-276 | the state moves as `ExposureDone` |
| MkIV.Controller.CloseShutter | firmware/main.c:255-257 | shutter off and clock disabled, nothing else |
| MkIV.Controller.LoadDelay | firmware/main.c:270-275 | the clock holds the delay, counting down, started, in `ST_WAIT` |
| MkIV.Controller.Expose | firmware/main.c:253-287 | the state moves as `OnRun` |
| MkIV.Controller.LockMirror | firmware/main.c:288-305 | the state moves as `OnMlu` |
| MkIV.Controller.ShowWait | firmware/main.c:307-316 | the buffer becomes `WaitScreen`: the remaining delay or the exposures remaining, with the blinking point |
| MkIV.Controller.Pause | firmware/main.c:306-324 | the state moves as `OnWait` |
| MkIV.Controller.Switch | firmware/main.c:122-325 | the state moves as `OnCase` |
| MkIV.Controller.SwitchSettings | firmware/main.c:125-242 | the settings cases move as `OnCase` and never re-dispatch |
| MkIV.Controller.SwitchRun | firmware/main.c:243-324 | the run cases move as `OnCase` and ignore the keys |
| MkIV.Controller.Dispatch | firmware/main.c:122-325 | the `goto newstate` loop moves the state as `Dispatched` |
| MkIV.Controller.CancelRun | firmware/main.c:329-340 | the state moves as `Cancel` |
| MkIV.Controller.CheckKeys | firmware/main.c:327-349 | the state moves as `RunKeys` |
| MkIV.Controller.Cycle | firmware/main.c:108-349 | one main-loop iteration moves the state as `Step` |
| MkIV.Controller.Interrupt | firmware/clock.c:50-79 | the clock interrupt moves the state as `Elapse` |
| MkII.Edit | MkII.c:263-283 | no key is a no-op; the result reports commit exactly for UP; any key leaves the value below the limit |
| MkII.Tapped | MkII.c:270-275 | the LEFT key's effect; stated by `MkII.ButtonsWrap` |
| MkII.Stepped | MkII.c:276-278 | the RIGHT key's effect; stated by `MkII.ButtonsWrap` |
| MkII.Presses | MkII.c:263-283 | n identical key events; stated by `MkII.PressesCompose`, `MkII.RightCounts` and `MkII.RightCycles` |
| MkII.ButtonsWrap | MkII.c:270-280 | LEFT adds 10 (HOLD clears), RIGHT adds 1, and a result at or past the limit wraps to 0 |
| MkII.PressesCompose | MkII.c:263-283 | n presses followed by k presses are n + k presses |
| MkII.RightCounts | MkII.c:277-280 | k RIGHT presses below the limit add k |
| MkII.RightCycles | MkII.c:277-280 | RIGHT at max-1 wraps to 0, and max RIGHT presses return to the start value |
| MkII.HeldLeftClears | MkII.c:270-274 | a LEFT hold reported by `GetButtons` clears the value without committing |
| MkII.Pair | MkII.c:446-455 | a menu pair shows hi at slots 0-1, the colon glyph at slot 2 and lo at slots 3-4 |
| MkII.MenuScreen | MkII.c:446-561 | the time and delay screens show minutes at slots 0-1 (leading zeros stripped while browsing), the colon or low dot at slot 2 and seconds at 3-4, blanking the field being edited while `TCNT2` bit 6 is set; the count and MLU screens show C or L, two blanks and the value at 3-4 |
| MkII.EditPos | MkII.c:518-561 | the field an editor changes is the minutes pair (slot 0) or the seconds or value pair (slot 3) |
| MkII.EditBlinksField | MkII.c:518-561 | in an editor the edited pair is blank exactly while `TCNT2` bit 6 is set, and on the time and delay screens the other pair never is |
| MkII.RunScreen | MkII.c:596-606 | the exposure screen (and, with the low dot as mark, the wait screen of `MkII.c:625-634`): slot 2 shows the mark except while bit 7 of `TCNT2` is set; in time mode slots 0-1 and 3-4 show the clock's minutes and seconds, in count mode C, a blank and the exposures remaining |
| MkII.SavedScreen | MkII.c:509-514 | the screen spells SA VE |
| MkII.LevelScreen | MkII.c:497 | the brightness screen is b, three blanks and the digit 4 - level |
| MkII.OnBrowse | MkII.c:446-481 | a menu pass draws the screen; LEFT goes to the next screen, otherwise UP enters its editor |
| MkII.OnBright | MkII.c:496-508 | the brightness screen goes only to itself, `ST_TIME` or `ST_SAVED` and never touches shutter or clock |
| MkII.OnBrightKeys | MkII.c:498-507 | LEFT goes to `ST_TIME`; else UP dims; else RIGHT saves; otherwise nothing changes |
| MkII.OnSaved | MkII.c:509-517 | the SAVE screen counts down and returns to brightness at 0 |
| MkII.EditKeepsRange | MkII.c:518-561 | editing an in-range configuration keeps it in range |
| MkII.OnEdit | MkII.c:518-561 | an edit pass stores `Edit`'s value, advances on UP and resets `TCNT2` on any key |
| MkII.OnRunPrime | MkII.c:562-571 | priming raises the mirror when MLU is set, otherwise starts the exposure and re-dispatches |
| MkII.OnRun | MkII.c:572-606 | an elapsed automatic exposure ends as `ExposureDone`; otherwise the run screen is shown |
| MkII.OnMlu | MkII.c:607-624 | mirror lock-up drops the shutter and counts MLU seconds, then starts the exposure |
| MkII.OnWait | MkII.c:625-643 | the wait screen (low dot) is shown; an elapsed delay stops the clock and re-primes |
| MkII.OnCase | MkII.c:443-644 | one `switch` pass keeps the invariant, lowers the rank when it re-dispatches and re-dispatches only between run states |
| MkII.OnSettingsCase | MkII.c:446-561 | a settings pass never enters a run, nor touches the shutter or the clock enable |
| MkII.OnOptionCase | MkII.c:496-561 | the option and edit passes never enter a run |
| MkII.OnRunCase | MkII.c:562-643 | a run pass keeps the settings; it stays in a run or returns to the saved screen with shutter and clock off |
| MkII.Dispatched | MkII.c:443-644 | `goto newstate` terminates with the invariant kept |
| MkII.Hops | MkII.c:443-644 | at most three `switch` passes per loop iteration |
| MkII.Step | MkII.c:431-668 | one main-loop iteration keeps the invariant |
| MkII.Steps | MkII.c:431-668 | any sequence of iterations keeps the invariant |
| MkII.Redispatch | MkII.c:443-644 | the dispatch is the case function repeated while it asks for `goto newstate` |
| MkII.DispatchedQuiet | MkII.c:443-644 | outside a run the clock stays disabled and the shutter closed |
| MkII.StepQuiet | MkII.c:431-668 | the same over a whole iteration |
| MkII.MenuKeys | MkII.c:446-481 | without RIGHT, LEFT moves to the next screen and UP enters the editor, settings untouched |
| MkII.EditKeys | MkII.c:518-561 | in an edit state the iteration stores `Edit`'s value and advances exactly on UP |
| MkII.BrightKeys | MkII.c:496-508 | LEFT returns to `ST_TIME`; UP dims and reloads the comparator; RIGHT saves what both MkII loaders give back |
| MkII.SavedCountsDown | MkII.c:509-517 | k ≤ remaining iterations on the SAVE screen lower the counter by k and return to brightness exactly at 0 |
| MkII.SavedLasts15 | MkII.c:503-517 | after saving, SAVE stays for 14 iterations and the 15th returns to brightness |
| MkII.ExposingStays | MkII.c:572-606 | a running exposure only redraws, in one pass |
| MkII.PrimeDispatch | MkII.c:562-571 | priming takes one pass with MLU set, two without |
| MkII.StartRuns | MkII.c:435-441 | RIGHT on a menu screen starts a run: mirror first when MLU is set, otherwise the exposure with the programmed time and direction |
| MkII.DispatchedRun | MkII.c:562-643 | a run dispatch keeps the settings and stays in a run or returns to the saved screen |
| MkII.CancelReturns | MkII.c:648-659 | RIGHT during a run returns to the saved screen with everything off, freezing a count-up time |
| MkII.ToggleNeedsCount | MkII.c:660-662 | LEFT toggles the display mode only when count > 1 |
| MkII.ExposureEnds | MkII.c:572-595 | at the end of an exposure the last one returns to the menu, the others load the delay |
| MkII.WaitRestarts | MkII.c:625-643 | when the delay ends the next exposure, or its mirror lock-up, starts in the same iteration |
| MkII.MirrorLockUp | MkII.c:607-624 | the mirror wait counts MLU seconds and then opens the shutter for the exposure |
| MkII.Controller.constructor | MkII.c:385-425 | boot loads the settings through the range-checked loader, sets the comparator and starts in `ST_TIME` |
| MkII.Controller.EditNum | MkII.c:263-283 | the setting becomes `Edit`'s value, the commit flag is returned and `TCNT2` is reset on any key |
| MkII.Controller.InitRun | MkII.c:350-371 | the state moves as `Timer.InitRun` |
| MkII.Controller.ShowPair | MkII.c:446-455 | the buffer becomes `Pair` |
| MkII.Controller.ShowMenu | MkII.c:446-561 | the buffer becomes `MenuScreen` of the machine: the settings pair of the current screen, its blinking edited field and its separator |
| MkII.Controller.Browse | MkII.c:446-481 | the state moves as `OnBrowse` |
| MkII.Controller.EditSetting | MkII.c:518-561 | the state moves as `OnEdit` |
| MkII.Controller.DimDisplay | MkII.c:663-667 | the state moves as `Dim` |
| MkII.Controller.SaveAll | MkII.c:503-507 | the state moves as `SaveSettings` |
| MkII.Controller.AdjustBright | MkII.c:496-508 | the state moves as `OnBright` |
| MkII.Controller.ShowLevel | MkII.c:497 | the buffer becomes `LevelScreen`: b, three blanks and the digit 4 - level |
| MkII.Controller.BrightKeys | MkII.c:498-507 | the state moves as `OnBrightKeys` |
| MkII.Controller.ShowSaved | MkII.c:509-517 | the state moves as `OnSaved` |
| MkII.Controller.Prime | MkII.c:562-571 | the state moves as `OnRunPrime` |
| MkII.Controller.ShowRun | MkII.c:596-606 | the buffer becomes `RunScreen` with the given mark: the elapsing time or the exposures remaining, with the blinking colon or low dot |
| MkII.Controller.EndExposure | MkII.c:572-595 | the state moves as `ExposureDone` |
| MkII.Controller.CloseShutter | MkII.c:574-576 | shutter off and clock disabled, nothing else |
| MkII.Controller.LoadDelay | MkII.c:589-592 | the clock holds the delay, counting down, started, in `ST_WAIT` |
| MkII.Controller.Expose | MkII.c:572-606 | the state moves as `OnRun` |
| MkII.Controller.LockMirror | MkII.c:607-624 | the state moves as `OnMlu` |
| MkII.Controller.Pause | MkII.c:625-643 | the state moves as `OnWait` |
| MkII.Controller.Switch | MkII.c:443-644 | the state moves as `OnCase` |
| MkII.Controller.SwitchSettings | MkII.c:446-561 | the settings cases move as `OnSettingsCase` |
| MkII.Controller.SwitchOption | MkII.c:496-561 | the option and edit cases move as `OnOptionCase` |
| MkII.Controller.SwitchRun | MkII.c:562-643 | the run cases move as `OnCase` and ignore the keys |
| MkII.Controller.Dispatch | MkII.c:443-644 | the `goto newstate` loop moves the state as `Dispatched` |
| MkII.Controller.CancelRun | MkII.c:648-659 | the state moves as `Cancel` |
| MkII.Controller.CheckKeys | MkII.c:646-668 | the state moves as `RunKeys` |
| MkII.Controller.Cycle | MkII.c:431-668 | one iteration polls the buttons as `GetButtons` and moves the state as `Step` on the events |
| MkII.Controller.Pass | MkII.c:435-668 | the rest of the iteration moves the state as `Step` |
| MkII.Controller.Interrupt | MkII.c:121-153 | the clock interrupt moves the state as `Elapse` |

## Left out

- Hardware set-up (`io_init`, port directions, timer prescalers,
  `clock_init`'s wait for the crystal, `sei`) and `Sleep`: register
  writes with no effect on the modelled state.
- The display refresh and blanking interrupts (`TIMER0_COMPA/COMPB`,
  MkII's `TIMER0_OVF`): they only copy the buffer to the ports; the model
  keeps the buffer and the comparator value.
- The segment shapes of the glyphs: only that the ten digit glyphs are
  distinct and non-blank, and that the decimal point is bit 0, are used.
- `firmware/sensors.c`, `firmware/io.c`, `firmware/io.h`: not part of
  this model.
- `input_poll` and the encoder decoding of the Mk IV board are not among
  the shown files: the Mk IV model takes each iteration's button mask and
  encoder difference as inputs. `BUTTON_ENC` is not defined in the shown
  headers; the model gives it bit 7, the only bit `input.h` leaves free.
- `firmware/input.c` gives the buttons different bit values from
  `firmware/input.h` (SET and START swapped, HOLD 0x10 against 0x08); the
  `Input` model follows `input.c`, which is the file that implements
  `GetButtons`, and the Mk IV controller follows `input.h`.
- Concurrency: the clock interrupt is modelled as a separate operation
  (`Interrupt`) that may run between loop iterations, not in the middle of
  one; `TCNT2`'s free-running count is a parameter (`Rtc.Advance`,
  `Timer.Advance`).
- EEPROM write timing and wear: `Save` is one atomic update of the array.
- MkII.Controller.constructor: boots through `Settings.DecodeMk2Checked`
  (the corrected loader) instead of MkII.c's unchecked `Load`, so that the
  controller's invariant holds; the as-written loader is modelled by
  `Settings.Store.LoadMk2` and `Settings.DecodeMk2` (see Findings).
- The `ST_OPTIONS` case of both `switch` statements is commented out in
  the source and is not modelled; `IntToDigs4` in `firmware/display.c` is
  commented out too, so only MkII.c's copy is modelled.

Remark: the Mk IV MLU editor stops at 59 (`firmware/main.c:239`), while
`Load` accepts up to 99 (`firmware/settings.c:41`); `Timer.LimitWithinRange`
states that every edited value loads back unchanged, and that for every
other editor the two limits agree exactly. The Mk IV brightness screen's
encoder branch (`firmware/main.c:179-180`) changes the level without
reloading the comparator, so the display keeps its old brightness until
the next SET dim; `MkIV.BrightTurn` states this as written.

## Findings

| source | as written | input that shows it | evidently intended | confidence | as-written member | corrected member |
|---|---|---|---|---|---|---|
| MkII.c:320-348 | `loadbyte` only replaces 0xFF, so any other stored byte is accepted whatever the setting's range | EEPROM bytes 0,0,0,0,150,0,7: count loads as 150 (tens digit 15, past the ten-entry digit table) and brightness as 7 (past the four-entry brightness table) | each setting checked against its range, as `firmware/settings.c:15-21` does later | not executed | Settings.UncheckedLoadEscapes | Settings.DecodeMk2Checked |
