# GB Stopwatch timekeeping core in Dafny

A model of the stopwatch firmware in `src/main.c`, which targets the Game Boy and Game Boy Color. The hardware
timer requests an interrupt about a hundred times a second. The interrupt handler
`stopwatch_timer_isr` advances three `uint8_t` counters: hundredths, seconds and minutes.
The main loop polls the joypad once per frame. A press edge of A starts or pauses the
stopwatch, and a press edge of B resets it while it is idle. While running, each frame
redraws the counters as background tiles on row 6 and plays a tick sound once per second,
when the handler has raised the `play_tick_sfx` flag.

Modules, one per component of `main.c`:

- `Bytes` (`bytes.dfy`): `uint8_t` as an integer subset type. Every wrap-around is written out.
- `Timekeeping` (`timekeeping.dfy`): the counters, the handler's carry rule (`Tick`), and
  lemmas about many ticks.
- `HardwareTimer` (`timer.dfy`): the TIMA/TMA/TAC registers. `Step` is one edge of the
  selected clock source: TIMA increments, and on 0xFF it reloads from TMA and requests the interrupt.
  Also the realtime constants and the period of the two speed modes.
- `Display` (`display.dfy`): `uitoa`, the leading-zero rule, the tile arithmetic
  `base + c - ' '`, and the background as a map from (column, row) to tile.
- `Control` (`control.dfy`): all globals as one value, `Machine`, with one function per
  routine that changes them. Also the invariant they keep and the control-state-machine properties.
- `Firmware` (`firmware.dfy`): class `Stopwatch`, whose fields are the globals. Its methods
  do what the C routines do, in place. `draw_numbers_ascii` keeps its two loops. The routines
  that change the globals (`TimerIsr`, `TimerClock`, `ResetStopwatch`, `PauseStopwatch`,
  `StartStopwatch`, `HandleInputs`, `PrintStopwatch`, `HandleStopwatch`, `RunFrame`,
  `SetTimerRealtimeReg`) are proved to produce `State() == F(old(State()))` for the matching
  function `F` of `Control`; the constructor ends in `State() == Init(fast)`. The three
  background writers change only the `bkg` field (`modifies this\`bkg`) and are proved
  against the display functions instead: `PutText` ends in `bkg == Text(old(bkg), x, y, s)`,
  `InitScene` in `bkg == Scene()`, and `DrawNumbersAscii` in
  `bkg == Paint(old(bkg), x, y, NumberTiles(TextBase, numZeros, buffer))`.

Modelling choices:

- The interrupt is an explicit call. `TimerClock` is one edge of the clock source and calls
  `TimerIsr` on overflow. `RunFrame` is one pass of the main loop. Its `vsync` wait is a
  parameter `edges`: the number of timer edges that arrive between `handle_inputs` and
  `handle_stopwatch`, each run through `TimerClock`. Edges between passes are further
  `TimerClock` calls by the caller.
- The tick handler advances minutes as a plain byte (`minutes++` on a `uint8_t`, src/main.c:256).
  Minutes wrap at 256 and there is no 60-minute rollover.
- The model counts ticks, not seconds. One realtime period is 41984 normal-speed CPU cycles
  (`HardwareTimer.RealtimePeriod`). At the 4.194304 MHz clock that the register notes
  assume, a "hundredth" lasts about 10.01 ms.
- `text_LUT_ascii_base_idx` is never assigned, so it keeps the zero of a static global
  (`Control.TextBase`). The display functions take the base as a parameter.
- `printf` text goes through the font library, which is not part of this model. It is
  modelled as tile `c - ' '`, the same lookup `draw_numbers_ascii` uses with base 0.
- `J_A = 0x10` and `J_B = 0x20` are the joypad masks from `gb/gb.h`, which is not part of this model.
- At power-on TAC is taken as 0x00 (timer stopped), and the background map is empty. An
  absent cell reads as tile 0, which is what `init_bkg(0)` writes.
- Sound effects are recorded as a list of cues (`sfx_1` start/stop, `sfx_2` tick, `sfx_4`
  reset). Their register values are not modelled.

## Model

| member | source | states |
|---|---|---|
| Bytes.Inc | src/main.c:249-256 | `++` on a `uint8_t` adds one below 255 and wraps 255 to 0. |
| Timekeeping.Tick | src/main.c:249-257 | From carried fields (hundredths < 100, seconds < 60) the result is carried. Hundredths roll over (result hundredths 0) exactly when they were 99, and then seconds change. Without a rollover, minutes and seconds are unchanged. |
| Timekeeping.TickAddsOne | src/main.c:249-257 | One tick adds exactly one to hundredths + 100·seconds + 6000·minutes. The only wrap is 255:59:99 back to 00:00:00, because minutes are a byte with no hour rollover. |
| Timekeeping.RunElapsed | src/main.c:249-257 | After n ticks from a carried time, the elapsed count is (start + n) mod 1536000 and the fields are still carried. |
| Timekeeping.RunFromZero | src/main.c:137-139 | From 00:00:00, n ticks give hundredths = n mod 100, seconds = (n/100) mod 60 and minutes = (n/6000) mod 256. |
| Timekeeping.CuesFromZero | src/main.c:250-253 | From 00:00:00, exactly n/100 of the first n ticks raise the tick cue: one per second, never more or fewer. |
| HardwareTimer.InputDivider | src/main.c:34-42 | Bits 1..0 of TAC choose 1024, 16, 64 or 256 CPU cycles per TIMA increment. |
| HardwareTimer.Step | src/main.c:17-30 | An edge never changes TMA or TAC. A stopped timer changes nothing. The interrupt is requested exactly when a running TIMA is at 0xFF. |
| HardwareTimer.RealtimeModulo | src/main.c:102-103 | The realtime modulo leaves 164 increments per overflow at normal speed (0x5C) and 82 at double speed (0xAE). |
| HardwareTimer.StartTac | src/main.c:97-99 | The start value enables the timer, and selects CPU/1024 at double speed and CPU/256 at normal speed. |
| HardwareTimer.StoppedTimerHolds | src/main.c:30 | With bit 2 of TAC clear, any number of edges leaves TIMA, TMA and TAC unchanged and requests no interrupt. |
| HardwareTimer.CountsUp | src/main.c:17-19 | Before overflow, a running TIMA counts up by one per edge and requests nothing. |
| HardwareTimer.OverflowAfter | src/main.c:17-24 | A running TIMA at v requests exactly one interrupt after 256 − v edges, and TIMA then holds TMA. A paused partial count resumes from where it stopped. |
| HardwareTimer.RealtimePeriod | src/main.c:39-49 | In the realtime configuration the first interrupt comes after exactly 256 − TMA edges and none before. The registers are then back to their start. The period is 83968 double-speed cycles in both modes: (256−0x5C)·256·2 = (256−0xAE)·1024. |
| HardwareTimer.RealtimeInterrupts | src/main.c:232-244 | From the realtime configuration, n periods request exactly n interrupts and return the registers to their start. |
| Display.Uitoa | src/main.c:402 | `uitoa` output is all decimal digits, with no leading zero unless the value is 0. It has one digit below 10, two below 100 and three below 1000. |
| Display.UitoaRoundTrip | src/main.c:402-411 | The digits `uitoa` produces read back as the number converted. |
| Display.NumZeros | src/main.c:401-411 | The leading-zero count plus the length of `uitoa`'s output is 2 below 100 and 3 from 100 on: every field is padded to at least two tiles, and only a single digit gets a zero. |
| Display.CharTile | src/main.c:317 | The space is the table's first tile, `base`, and a digit d is `base + 16 + d`. |
| Display.ZeroTile | src/main.c:312 | The leading-zero tile `base + 16` is the tile of the character '0'. |
| Display.DigitTiles | src/main.c:315-321 | Walking a buffer of digits gives one tile per character, in order: the i-th tile is `base + c − ' '` for the i-th character c. |
| Display.PaintCells | src/main.c:306-323 | The contract of `Paint`: consecutive writes from (x, y) put tile j at (x + j, y) and leave every other cell unchanged. |
| Display.NumberTilesLayout | src/main.c:306-323 | The contract of `NumberTiles`: `num_zeros` '0' tiles come first, then, for a buffer of digits, exactly one tile per digit in order. |
| Display.FieldLayout | src/main.c:397-411 | The contract of `FieldTiles`: a counter field is two tiles below 100 and three from 100 on, a single digit is led by the '0' tile, and the last tile is the units digit. |
| Display.PrintTimeFrame | src/main.c:397-415 | The contract of `PrintTime`: whatever the counters hold, `print_stopwatch` writes only columns 6-14 of row 6, and (14,6) always ends blank. |
| Display.TwoDigitField | src/main.c:401-411 | A field v ≤ 99 is drawn as exactly two tiles, `base+16+v/10` then `base+16+v%10`, with the leading zero for v ≤ 9. |
| Display.PrintTwoDigitTime | src/main.c:397-415 | With every field ≤ 99, `print_stopwatch` writes exactly columns 6-7, 9-10 and 12-13 of row 6 with the tens and units tiles of minutes, seconds and hundredths, writes tile 0 at (14,6), and nothing else. |
| Control.Rising | src/main.c:385-389 | An edge is a change of the button's bit, and for A and B it is exactly the bit going from 0 in the previous sample to 1 in this one. |
| Control.SceneShowsZero | src/main.c:283-300 | The contract of `Scene`: the clock `init_scene` prints reads 00:00:00, the same digit tiles `print_stopwatch` draws for zero. |
| Control.SetRealtime | src/main.c:232-244 | TMA and TIMA both get 0x5C at normal speed and 0xAE at double speed. TAC and every other global are unchanged. |
| Control.Init | src/main.c:435-445 | After boot the invariant holds: 00:00:00, idle, no cue pending or fired, timer stopped with TIMA = TMA. |
| Control.Isr | src/main.c:246-261 | When idle nothing changes. When running the counters take one `Tick`. The handler touches only the counters and the cue flag and never lowers the flag. On carried counters the flag is up afterwards exactly when it was up before or hundredths were 99. |
| Control.Clock | src/main.c:17-30 | One timer edge changes only the registers, the counters and the cue flag. The counters take one tick exactly when the stopwatch runs and the edge overflows TIMA. A stopped timer changes nothing. |
| Control.Reset | src/main.c:329-342 | Reset zeroes the three counters, leaves the stopwatch idle, fires the reset cue, and leaves the timer registers, the cue flag and the previous joypad sample unchanged. |
| Control.Pause | src/main.c:344-361 | Pause writes TAC = 0x00 and leaves TIMA and TMA alone. It clears the run flag, fires the start/stop cue and leaves the counters unchanged. |
| Control.Start | src/main.c:363-378 | Start writes TAC = 0x04 at double speed and 0x07 otherwise. It sets the run flag, fires the start/stop cue, and leaves TIMA, TMA and the counters unchanged. |
| Control.HandleInputs | src/main.c:380-395 | The previous sample becomes this one. The run flag toggles exactly on a rising A, and TAC follows it. The counters become 00:00:00 exactly on a rising B with the flag down after the A check, and are unchanged otherwise. The cues fired are exactly those transitions, in order. With no rising edge only the previous sample changes. |
| Control.PrintStopwatch | src/main.c:397-415 | Only the background and `num_zeros` change, and `num_zeros` is left as the padding of the hundredths field. |
| Control.ClocksKeepInv | src/main.c:458 | The timer edges during `vsync` change only the registers, the counters and the cue flag, leave the counters alone while idle, and keep the invariant. |
| Control.Frame | src/main.c:456-460 | One pass, with any number of timer edges during its `vsync`, keeps the invariant, records the sample and toggles the run flag exactly on a rising A. An idle pass keeps the counters `handle_inputs` left; a running pass draws the time it ends with, vsync ticks included, and ends with the cue flag lowered. |
| Control.HandleStopwatch | src/main.c:417-429 | When idle nothing changes. When running the time is redrawn with `print_stopwatch`. The cue flag is lowered and the tick cue fired exactly when running with the flag up. |
| Control.FrameKeepsInv | src/main.c:451-461 | Every pass of the main loop, whatever the timer edges during its `vsync`, keeps counters carried, TMA at the realtime modulo, and the timer running exactly while the stopwatch runs. |
| Control.ClockKeepsInv | src/main.c:246-261 | Every timer edge, with the handler it may run, keeps the same invariant. |
| Control.PauseThenResetSameFrame | src/main.c:385-391 | A and B rising together while running pause and then reset in the same frame: idle, 00:00:00, TAC 0x00, cues start/stop then reset. |
| Control.HeldButtonsDoNothing | src/main.c:385-393 | With A and B both held from the previous sample, `handle_inputs` only records the new sample. |
| Control.HeldPressTogglesOnce | src/main.c:383-393 | One press of A held over two frames toggles the stopwatch once. |
| Control.NoResetWhileRunning | src/main.c:389-391 | While running, with no A edge, B leaves the counters unchanged and the stopwatch running. |
| Control.PauseResumeKeepsCount | src/main.c:346-350 | Pause stops the timer, and a pause followed by a start leaves TIMA and TMA as they were, so the partial count resumes. |
| Control.TickCueSurvivesPause | src/main.c:417-428 | A raised cue flag stays raised through the handler, timer edges and input handling. `handle_stopwatch` lowers it exactly when running, so a flag raised before a pause survives until the next run. |
| Control.PausedClocksHold | src/main.c:349 | With the timer stopped, any number of timer edges leaves the whole state unchanged: the counters are frozen while paused. |
| Control.RunningClocks | src/main.c:246-261 | While running, k timer edges advance the registers by k edges and the counters by one tick per interrupt requested. The cue flag is up afterwards exactly when it was before or one of those ticks crossed a second. Nothing else changes. |
| Control.ResetShowsZero | src/main.c:339-340 | After a reset the six digit cells of row 6 hold the '0' tile, which is what `print_stopwatch` would draw for 00:00:00. |
| Control.PowerOnStart | src/main.c:451-461 | At power-on, the first pass with A pressed and no timer edge during its `vsync` starts the stopwatch at 00:00:00 with TIMA = TMA, and the invariant holds. |
| Control.StartAndRun | src/main.c:232-261 | Started at 00:00:00 with TIMA = TMA, n realtime periods leave the counters reading n hundredths. A following pass with no timer edge during its `vsync` draws them. TIMA = TMA holds at power-on (`Control.PowerOnStart`), not after a reset (`Control.ResetKeepsPartialCount`). |
| Control.ResetKeepsPartialCount | src/main.c:329-378 | A reset does not reload TIMA: after a pause, passes with B and then A from an idle state (any edges during the idle passes' `vsync`), the first hundredth arrives after 256 − TIMA edges, not after a full realtime period. |
| Control.WholeMinutesShow | src/main.c:397-415 | Started at 00:00:00, after mins·6000 realtime periods (mins ≤ 99) a following pass with no timer edge during its `vsync` shows mins:00:00 on row 6; 6000 periods show 01:00:00. |
| Control.HandleInputsAsWritten | src/main.c:380-395 | `handle_inputs` as written: the stored sample and the two edge samples are separate reads. It equals `HandleInputs` when all three reads agree. |
| Control.PressBetweenReadsTogglesTwice | src/main.c:383-393 | A press landing between the first and second joypad read starts the stopwatch and, held into the next frame, pauses it again: two toggles for one press. |
| Firmware.Stopwatch.constructor | src/main.c:435-445 | The globals after boot equal `Init`, and the invariant holds. |
| Firmware.Stopwatch.PutText | src/main.c:290-291 | `gotoxy` followed by `printf` writes the text's tiles from the cursor cell. |
| Firmware.Stopwatch.InitScene | src/main.c:283-300 | `init_scene` paints the header, the 00:00:00 clock and the control labels. |
| Firmware.Stopwatch.SetTimerRealtimeReg | src/main.c:232-244 | Updates the registers in place as `SetRealtime` says. |
| Firmware.Stopwatch.TimerIsr | src/main.c:246-261 | Updates the counters and the cue flag in place as `Isr` says. |
| Firmware.Stopwatch.TimerClock | src/main.c:17-30 | One timer edge in place, as `Clock` says, keeping the invariant. |
| Firmware.Stopwatch.ResetStopwatch | src/main.c:329-342 | In place, as `Reset` says. |
| Firmware.Stopwatch.PauseStopwatch | src/main.c:344-361 | In place, as `Pause` says. |
| Firmware.Stopwatch.StartStopwatch | src/main.c:363-378 | In place, as `Start` says. |
| Firmware.Stopwatch.HandleInputs | src/main.c:380-395 | In place on one joypad sample, as `Control.HandleInputs` says. |
| Firmware.Stopwatch.DrawNumbersAscii | src/main.c:306-323 | The two loops write `num_zeros` leading-zero tiles, then one tile per digit of the buffer, into consecutive cells of row y from column x. No other cell changes. |
| Firmware.Stopwatch.PrintStopwatch | src/main.c:397-415 | In place, as `Control.PrintStopwatch` says: the three fields and the blank at (14,6). |
| Firmware.Stopwatch.HandleStopwatch | src/main.c:417-429 | In place, as `Control.HandleStopwatch` says. |
| Firmware.Stopwatch.RunFrame | src/main.c:456-460 | One pass of the main loop in place: `handle_inputs`, a loop of `edges` timer edges during `vsync`, then `handle_stopwatch`, as `Frame` says, keeping the invariant. |

## Left out

- Sound: `sfx_1`, `sfx_2` and `sfx_4`, `SOUND_ON`/`SOUND_OFF` and the `VOLUME_*` writes are
  plain register writes. Only the firing of each cue is recorded.
- Platform bring-up is left out because it is foreign library code. This covers `set_cpu`
  (whose result is the constant `isCpuFast`), `clear_sprite_tiles`, `init_system`, font
  loading, the wait inside `vsync` (only the timer edges it admits are modelled), `SHOW_*`/`DISPLAY_ON` and the interrupt-enable calls.
- Concurrency: `CRITICAL` blocks, `volatile`, and `add_TIM`/`remove_TIM` registration are
  left out. The interrupt runs only between whole routines, never in the middle of one.
- `print_stopwatch` race: because the interrupt cannot arrive in the middle of a routine,
  the model cannot show the three-digit race that the blank write at (14,6) guards against.
  The race is a field changing between the `num_zeros` test and `uitoa`.
- Display.PrintTwoDigitTime: states the cell layout only for fields ≤ 99. Minutes reach 255,
  and from 100 on they draw three tiles over the colon at (8,6). The model computes those
  writes and `Display.PrintTimeFrame` keeps them inside columns 6-14 of row 6, but no lemma
  gives their tiles.
- Firmware.Stopwatch.HandleInputs: takes one joypad sample per frame. The source reads the joypad three times per
  frame. That behaviour is modelled separately as `Control.HandleInputsAsWritten` (see Findings).
- Display.Paint, Display.NumberTiles, Display.FieldTiles, Display.PrintTime: their contracts
  are stated as the lemmas `Display.PaintCells`, `Display.NumberTilesLayout`,
  `Display.FieldLayout` and `Display.PrintTimeFrame`, which are named in the table. Stated as
  the functions' own postconditions, these quantified facts are instantiated in every proof
  that mentions the background and make those proofs too expensive.
- Display.Paint: a row of writes is modelled as consecutive columns of one row. Moving to the
  next VRAM row past column 31 is not modelled, and the fixed columns used never reach it.
- The `uitoa` output buffers are modelled as strings without the terminating NUL, and
  their 6-byte size is not modelled.

## Findings

| source | as written | input that shows it | evidently intended | confidence | as-written member | corrected member |
|---|---|---|---|---|---|---|
| src/main.c:383-393 | `current_joypad` is stored as `prev_joypad`, but the A and B edges are taken from two further `joypad()` reads | previous sample 0; A goes down between the read at line 383 and the read at line 385 and stays down into the next frame. The stopwatch starts and then pauses in the next frame. | edges and the stored sample come from the same read, so one press toggles once | low likelihood (the reads are microseconds apart), not executed | Control.HandleInputsAsWritten; Control.PressBetweenReadsTogglesTwice | Control.HandleInputs; Control.HeldPressTogglesOnce |
