/**
 * The stopwatch as a value: the globals of the firmware gathered in one
 * record, and one function per routine that changes them. The class in
 * module Firmware runs these routines in place; this module states what each
 * one does to the whole state and proves the properties the firmware relies on.
 */
module Control {
  import opened Bytes
  import opened Timekeeping
  import opened HardwareTimer
  import opened Display

  /** Joypad bits of the A and B buttons. */
  const J_A: bv8 := 0x10
  const J_B: bv8 := 0x20

  /** `text_LUT_ascii_base_idx`: never assigned, so it keeps the zero of a static global. */
  const TextBase: byte := 0

  /** The sound presets fired: `sfx_1` on start and pause, `sfx_2` each second, `sfx_4` on reset. */
  datatype Cue = StartStopCue | TickCue | ResetCue

  /**
   * The globals: the counters, the run flag `stopwatch`, the tick cue flag
   * `play_tick_sfx`, the static `prev_joypad` of `handle_inputs`, the timer
   * registers, `num_zeros`, the background map and the cues fired so far.
   */
  datatype Machine = Machine(
    time: Time,
    stopwatch: bool,
    playTickSfx: bool,
    prevJoypad: bv8,
    timer: Regs,
    numZeros: byte,
    bkg: map<Cell, byte>,
    cues: seq<Cue>)

  predicate Pressed(pad: bv8, button: bv8) {
    pad & button != 0
  }

  /** A press edge: down in this sample and up in the previous one. */
  function Rising(pad: bv8, prev: bv8, button: bv8): (b: bool)
    ensures b ==> pad & button != prev & button
    ensures button == J_A || button == J_B ==> (b <==> pad & button == button && prev & button == 0)
  {
    Pressed(pad, button) && !Pressed(prev, button)
  }

  /**
   * What holds between routines: the counters are carried, TMA holds the
   * realtime modulo of the CPU speed, and the timer runs exactly while the
   * stopwatch does.
   */
  predicate Inv(m: Machine, fast: bool) {
    Carried(m.time) &&
    m.timer.tma == RealtimeModulo(fast) &&
    m.timer.tac == if m.stopwatch then StartTac(fast) else TAC_STOP
  }

  /** `set_timer_realtime_reg`: TMA and TIMA both get 0x5C at normal speed and 0xAE at double speed. */
  function SetRealtime(m: Machine, fast: bool): (r: Machine)
    ensures r.timer.tma == r.timer.tima == if fast then 0xAE else 0x5C
    ensures r == m.(timer := r.timer) && r.timer.tac == m.timer.tac
  {
    var v := RealtimeModulo(fast);
    m.(timer := m.timer.(tma := v, tima := v))
  }

  /** The text `init_scene` prints on the cleared background. */
  function Scene(): map<Cell, byte> {
    var title := Text(map[], 1, 1, "GB STOPWATCH :");
    var rule := Text(title, 1, 2, "------------------");
    var clock := Text(rule, 6, 6, "00:00:00");
    var footer := Text(clock, 1, 14, "------------------");
    var labelA := Text(footer, 5, 15, "A:   Start");
    Text(labelA, 5, 16, "B:   Reset")
  }

  /** The state `main` enters its loop with, after `init_system` and `init_game`. */
  function Init(fast: bool): (r: Machine)
    ensures Inv(r, fast)
    ensures r.time == Zero && !r.stopwatch && !r.playTickSfx && r.cues == []
    ensures !Enabled(r.timer.tac) && r.timer.tima == r.timer.tma
  {
    var booted := Machine(Zero, false, false, 0, Regs(0, 0, TAC_STOP), 0, map[], []);
    SetRealtime(booted, fast).(bkg := Scene())
  }

  /** `stopwatch_timer_isr`. */
  function Isr(m: Machine): (r: Machine)
    ensures !m.stopwatch ==> r == m
    ensures r == m.(time := r.time, playTickSfx := r.playTickSfx)
    ensures m.stopwatch ==> r.time == Tick(m.time)
    ensures m.playTickSfx ==> r.playTickSfx
    ensures Carried(m.time) ==> Carried(r.time)
    ensures Carried(m.time) ==>
              (r.playTickSfx <==> m.playTickSfx || (m.stopwatch && m.time.hundredths == 99))
  {
    if m.stopwatch then
      m.(time := Tick(m.time), playTickSfx := m.playTickSfx || SecondBoundary(m.time))
    else
      m
  }

  /** One edge of the timer's clock source; an overflow runs the interrupt handler. */
  function Clock(m: Machine): (r: Machine)
    ensures r == m.(time := r.time, playTickSfx := r.playTickSfx, timer := r.timer)
    ensures r.timer == Step(m.timer).regs
    ensures r.time == if m.stopwatch && Step(m.timer).interrupt then Tick(m.time) else m.time
    ensures !Enabled(m.timer.tac) ==> r == m
  {
    var e := Step(m.timer);
    var stepped := m.(timer := e.regs);
    if e.interrupt then Isr(stepped) else stepped
  }

  /** `k` edges of the timer's clock source. */
  function Clocks(m: Machine, k: nat): Machine {
    if k == 0 then m else Clock(Clocks(m, k - 1))
  }

  /** `reset_stopwatch`. */
  function Reset(m: Machine): (r: Machine)
    ensures r == m.(time := Zero, stopwatch := false, cues := m.cues + [ResetCue], bkg := r.bkg)
  {
    m.(cues := m.cues + [ResetCue], stopwatch := false, time := Zero,
       bkg := Text(m.bkg, 6, 6, "00:00:00"))
  }

  /** `pause_stopwatch`: the divider stops; TIMA and TMA are left as they are. */
  function Pause(m: Machine): (r: Machine)
    ensures r == m.(timer := r.timer, stopwatch := false, cues := m.cues + [StartStopCue], bkg := r.bkg)
    ensures r.timer == m.timer.(tac := 0x00)
  {
    var labelA := Text(m.bkg, 10, 15, "Start");
    m.(timer := m.timer.(tac := TAC_STOP), stopwatch := false,
       cues := m.cues + [StartStopCue], bkg := Text(labelA, 5, 16, "B:   Reset"))
  }

  /** `start_stopwatch`: TAC gets 0x04 (CPU/1024) at double speed and 0x07 (CPU/256) otherwise. */
  function Start(m: Machine, fast: bool): (r: Machine)
    ensures r == m.(timer := r.timer, stopwatch := true, cues := m.cues + [StartStopCue], bkg := r.bkg)
    ensures r.timer == m.timer.(tac := if fast then 0x04 else 0x07)
  {
    var labelA := Text(m.bkg, 10, 15, "Stop ");
    m.(timer := m.timer.(tac := StartTac(fast)), stopwatch := true,
       cues := m.cues + [StartStopCue], bkg := Text(labelA, 5, 16, "          "))
  }

  /**
   * `handle_inputs` on one joypad sample: a rising A pauses a running stopwatch
   * and starts an idle one; then a rising B resets if the stopwatch is idle
   * after the A check; the sample becomes the previous one.
   */
  function HandleInputs(m: Machine, pad: bv8, fast: bool): (r: Machine)
    ensures r.prevJoypad == pad
    ensures r.playTickSfx == m.playTickSfx && r.numZeros == m.numZeros
    ensures r.timer.tima == m.timer.tima && r.timer.tma == m.timer.tma
    ensures r.stopwatch == (m.stopwatch != Rising(pad, m.prevJoypad, J_A))
    ensures r.timer.tac == if !Rising(pad, m.prevJoypad, J_A) then m.timer.tac
                           else if m.stopwatch then TAC_STOP else StartTac(fast)
    ensures r.time == if Rising(pad, m.prevJoypad, J_B) && !r.stopwatch then Zero else m.time
    ensures r.cues == m.cues + (if Rising(pad, m.prevJoypad, J_A) then [StartStopCue] else [])
                             + (if Rising(pad, m.prevJoypad, J_B) && !r.stopwatch then [ResetCue] else [])
    ensures !Rising(pad, m.prevJoypad, J_A) && !Rising(pad, m.prevJoypad, J_B) ==>
              r == m.(prevJoypad := pad)
  {
    var afterA :=
      if Rising(pad, m.prevJoypad, J_A) then (if m.stopwatch then Pause(m) else Start(m, fast))
      else m;
    var afterB :=
      if Rising(pad, m.prevJoypad, J_B) && !afterA.stopwatch then Reset(afterA) else afterA;
    afterB.(prevJoypad := pad)
  }

  /** `print_stopwatch`. */
  function PrintStopwatch(m: Machine): (r: Machine)
    ensures r == m.(numZeros := r.numZeros, bkg := r.bkg)
    ensures r.numZeros + |Uitoa(m.time.hundredths)| == if m.time.hundredths < 100 then 2 else 3
  {
    m.(numZeros := NumZeros(m.time.hundredths), bkg := PrintTime(m.bkg, TextBase, m.time))
  }

  /**
   * `handle_stopwatch`: only while running, redraw the time and, when the tick
   * cue flag is up, fire the tick cue and lower the flag.
   */
  function HandleStopwatch(m: Machine): (r: Machine)
    ensures !m.stopwatch ==> r == m
    ensures r.playTickSfx == (m.playTickSfx && !m.stopwatch)
    ensures r.cues == m.cues + if m.stopwatch && m.playTickSfx then [TickCue] else []
    ensures r.time == m.time && r.stopwatch == m.stopwatch
    ensures r.timer == m.timer && r.prevJoypad == m.prevJoypad
    ensures m.stopwatch ==> r.bkg == PrintTime(m.bkg, TextBase, m.time)
  {
    if m.stopwatch then
      var printed := PrintStopwatch(m);
      if printed.playTickSfx then printed.(cues := printed.cues + [TickCue], playTickSfx := false)
      else printed
    else
      m
  }

  /**
   * The timer edges that arrive during `vsync` change only the registers, the
   * counters and the cue flag; while idle they leave the counters alone; and
   * each of them keeps the invariant.
   */
  lemma {:induction false} ClocksKeepInv(m: Machine, fast: bool, k: nat)
    ensures var r := Clocks(m, k);
            r == m.(time := r.time, playTickSfx := r.playTickSfx, timer := r.timer)
    ensures !m.stopwatch ==> Clocks(m, k).time == m.time
    ensures Inv(m, fast) ==> Inv(Clocks(m, k), fast)
  {
    if k > 0 {
      ClocksKeepInv(m, fast, k - 1);
      if Inv(m, fast) {
        ClockKeepsInv(Clocks(m, k - 1), fast);
      }
    }
  }

  /**
   * One pass of the main loop: `handle_inputs`, then `vsync`, during which
   * `edges` edges of the timer's clock source arrive, then `handle_stopwatch`.
   * A running pass draws the time it ends with, ticks of the wait included.
   */
  function Frame(m: Machine, pad: bv8, fast: bool, edges: nat): (r: Machine)
    ensures Inv(m, fast) ==> Inv(r, fast)
    ensures r.prevJoypad == pad
    ensures r.stopwatch == (m.stopwatch != Rising(pad, m.prevJoypad, J_A))
    ensures r.stopwatch ==> !r.playTickSfx
    ensures !r.stopwatch ==> r.time == HandleInputs(m, pad, fast).time
    ensures r.stopwatch ==> r.bkg == PrintTime(HandleInputs(m, pad, fast).bkg, TextBase, r.time)
  {
    var inputs := HandleInputs(m, pad, fast);
    ClocksKeepInv(inputs, fast, edges);
    HandleStopwatch(Clocks(inputs, edges))
  }

  /** Every pass of the main loop keeps the invariant. */
  lemma FrameKeepsInv(m: Machine, pad: bv8, fast: bool, edges: nat)
    requires Inv(m, fast)
    ensures Inv(HandleInputs(m, pad, fast), fast)
    ensures Inv(Frame(m, pad, fast, edges), fast)
  {
  }

  /** Every timer edge, and the interrupt it may run, keeps the invariant. */
  lemma ClockKeepsInv(m: Machine, fast: bool)
    requires Inv(m, fast)
    ensures Inv(Clock(m), fast)
  {
  }

  /** A and B pressed together while running pause and then reset, in that order, in the same frame. */
  lemma PauseThenResetSameFrame(m: Machine, pad: bv8, fast: bool)
    requires m.stopwatch && Rising(pad, m.prevJoypad, J_A) && Rising(pad, m.prevJoypad, J_B)
    ensures var r := HandleInputs(m, pad, fast);
            !r.stopwatch && r.time == Zero && r.timer.tac == TAC_STOP &&
            r.cues == m.cues + [StartStopCue, ResetCue]
  {
  }

  /** A button held from the previous sample does nothing, however it is combined. */
  lemma HeldButtonsDoNothing(m: Machine, pad: bv8, fast: bool)
    requires Pressed(m.prevJoypad, J_A) && Pressed(m.prevJoypad, J_B)
    ensures HandleInputs(m, pad, fast) == m.(prevJoypad := pad)
  {
  }

  /** One press of A, held over two samples, toggles the stopwatch once. */
  lemma HeldPressTogglesOnce(m: Machine, fast: bool)
    requires !Pressed(m.prevJoypad, J_A)
    ensures HandleInputs(m, J_A, fast).stopwatch == !m.stopwatch
    ensures HandleInputs(HandleInputs(m, J_A, fast), J_A, fast).stopwatch == !m.stopwatch
  {
  }

  /** While running, with no A edge in the frame, B changes neither the counters nor the run state. */
  lemma NoResetWhileRunning(m: Machine, pad: bv8, fast: bool)
    requires m.stopwatch && !Rising(pad, m.prevJoypad, J_A)
    ensures HandleInputs(m, pad, fast).time == m.time
    ensures HandleInputs(m, pad, fast).stopwatch
  {
  }

  /** Pausing and starting again leave TIMA and TMA alone: the partial count resumes where it stopped. */
  lemma PauseResumeKeepsCount(m: Machine, fast: bool)
    ensures Start(Pause(m), fast).timer == m.timer.(tac := StartTac(fast))
    ensures !Enabled(Pause(m).timer.tac)
  {
  }

  /** The tick cue flag is cleared only by `handle_stopwatch` while running: a flag raised before a pause survives the pause. */
  lemma TickCueSurvivesPause(m: Machine, pad: bv8, fast: bool)
    requires m.playTickSfx
    ensures Isr(m).playTickSfx && Clock(m).playTickSfx
    ensures HandleInputs(m, pad, fast).playTickSfx
    ensures HandleStopwatch(m).playTickSfx <==> !m.stopwatch
  {
  }

  /** With the timer stopped, no number of clock edges changes anything. */
  lemma {:induction false} PausedClocksHold(m: Machine, k: nat)
    requires !Enabled(m.timer.tac)
    ensures Clocks(m, k) == m
  {
    if k > 0 {
      PausedClocksHold(m, k - 1);
    }
  }

  /**
   * While running, `k` clock edges advance the timer registers by `k` edges and
   * the counters by one tick per interrupt those edges request; the cue flag
   * ends up raised when it was raised before or one of those ticks crossed a second.
   */
  lemma {:induction false} RunningClocks(m: Machine, k: nat)
    requires m.stopwatch
    ensures Clocks(m, k).timer == Advance(m.timer, k)
    ensures Clocks(m, k).time == Run(m.time, Interrupts(m.timer, k))
    ensures Clocks(m, k).playTickSfx == (m.playTickSfx || CueCount(m.time, Interrupts(m.timer, k)) > 0)
    ensures Clocks(m, k) == m.(time := Clocks(m, k).time, timer := Clocks(m, k).timer,
                               playTickSfx := Clocks(m, k).playTickSfx)
  {
    if k > 0 {
      RunningClocks(m, k - 1);
    }
  }

  /** After a reset the six digit cells of row 6 hold the '0' tile, as a redraw of 00:00:00 would. */
  lemma ResetShowsZero(m: Machine, col: nat)
    requires col in {6, 7, 9, 10, 12, 13}
    ensures TileAt(Reset(m).bkg, (col, 6)) == ZeroTile(TextBase)
    ensures TileAt(Reset(m).bkg, (col, 6)) == TileAt(PrintTime(m.bkg, TextBase, Zero), (col, 6))
  {
    PaintCells(m.bkg, 6, 6, TextTiles("00:00:00"), (col, 6));
    PrintTwoDigitTime(m.bkg, TextBase, Zero);
  }

  /** The clock `init_scene` prints reads 00:00:00: each digit cell holds what `print_stopwatch` draws for zero. */
  lemma SceneShowsZero(col: nat)
    requires col in {6, 7, 9, 10, 12, 13}
    ensures TileAt(Scene(), (col, 6)) == ZeroTile(TextBase)
    ensures TileAt(Scene(), (col, 6)) == TileAt(PrintTime(Scene(), TextBase, Zero), (col, 6))
  {
    var title := Text(map[], 1, 1, "GB STOPWATCH :");
    var rule := Text(title, 1, 2, "------------------");
    var clock := Text(rule, 6, 6, "00:00:00");
    var footer := Text(clock, 1, 14, "------------------");
    var labelA := Text(footer, 5, 15, "A:   Start");
    PaintCells(rule, 6, 6, TextTiles("00:00:00"), (col, 6));
    PaintCells(clock, 1, 14, TextTiles("------------------"), (col, 6));
    PaintCells(footer, 5, 15, TextTiles("A:   Start"), (col, 6));
    PaintCells(labelA, 5, 16, TextTiles("B:   Reset"), (col, 6));
    ZeroPrintsZeroTiles(Scene(), col);
  }

  lemma ZeroPrintsZeroTiles(bkg: map<Cell, byte>, col: nat)
    requires col in {6, 7, 9, 10, 12, 13}
    ensures TileAt(PrintTime(bkg, TextBase, Zero), (col, 6)) == ZeroTile(TextBase)
  {
    PrintTwoDigitTime(bkg, TextBase, Zero);
  }

  /**
   * At power-on a press of A starts the stopwatch at 00:00:00 with the timer
   * freshly loaded, when no timer edge arrives during that pass's `vsync`.
   */
  lemma PowerOnStart(fast: bool)
    ensures var started := Frame(Init(fast), J_A, fast, 0);
            Inv(started, fast) && started.stopwatch && started.time == Zero &&
            started.timer.tima == started.timer.tma
  {
  }

  /**
   * Started at 00:00:00 with TIMA at its reload value, `n` realtime periods of the
   * timer make the counters read n hundredths, and a following pass with no
   * timer edge during its `vsync` draws them.
   */
  lemma StartAndRun(m: Machine, fast: bool, n: nat)
    requires Inv(m, fast) && m.stopwatch && m.time == Zero && m.timer.tima == m.timer.tma
    ensures var ran := Clocks(m, n * (256 - RealtimeModulo(fast)));
            ran.stopwatch &&
            ran.time == Time((n / 6000) % 256, (n / 100) % 60, n % 100) &&
            Frame(ran, m.prevJoypad, fast, 0).bkg == PrintTime(ran.bkg, TextBase, ran.time)
  {
    var k := n * (256 - RealtimeModulo(fast));
    assert m.timer == Regs(RealtimeModulo(fast), RealtimeModulo(fast), StartTac(fast));
    RealtimeInterrupts(fast, n);
    RunningClocks(m, k);
    RunFromZero(n);
  }

  /**
   * `reset_stopwatch` does not reload TIMA. After a pause, a reset (B) and a
   * start (A), the first hundredth is counted from wherever TIMA stopped, so it
   * ends after 256 - TIMA edges rather than after a full realtime period. The
   * idle passes may take any number of edges; the starting pass takes none.
   */
  lemma ResetKeepsPartialCount(m: Machine, fast: bool, resetEdges: nat, releaseEdges: nat)
    requires Inv(m, fast) && !m.stopwatch && m.prevJoypad == 0
    ensures var reset := Frame(m, J_B, fast, resetEdges);
            var released := Frame(reset, 0, fast, releaseEdges);
            var started := Frame(released, J_A, fast, 0);
            started.stopwatch && started.time == Zero && started.timer.tima == m.timer.tima &&
            Clocks(started, 256 - m.timer.tima).time == Time(0, 0, 1)
  {
    var pressedB := HandleInputs(m, J_B, fast);
    assert pressedB.timer == m.timer && !pressedB.stopwatch && pressedB.time == Zero;
    PausedClocksHold(pressedB, resetEdges);
    var reset := Frame(m, J_B, fast, resetEdges);
    assert reset == pressedB;
    var releasedB := HandleInputs(reset, 0, fast);
    assert releasedB == reset.(prevJoypad := 0);
    PausedClocksHold(releasedB, releaseEdges);
    var released := Frame(reset, 0, fast, releaseEdges);
    assert released == releasedB;
    var started := Frame(released, J_A, fast, 0);
    assert started.timer == m.timer.(tac := StartTac(fast));
    OverflowAfter(started.timer);
    RunningClocks(started, 256 - m.timer.tima);
    assert Run(Zero, 1) == Tick(Zero);
  }

  /**
   * Started at 00:00:00 with TIMA at its reload value, `mins` minutes of timer
   * periods show mins:00:00 on row 6 after a following pass with no timer edge
   * during its `vsync` (01:00:00 after 6000 periods).
   */
  lemma WholeMinutesShow(m: Machine, fast: bool, mins: nat)
    requires Inv(m, fast) && m.stopwatch && m.time == Zero && m.timer.tima == m.timer.tma
    requires mins <= 99
    ensures var ran := Clocks(m, mins * 6000 * (256 - RealtimeModulo(fast)));
            var shown := Frame(ran, m.prevJoypad, fast, 0).bkg;
            TileAt(shown, (6, 6)) == 16 + mins / 10 && TileAt(shown, (7, 6)) == 16 + mins % 10 &&
            TileAt(shown, (9, 6)) == 16 && TileAt(shown, (10, 6)) == 16 &&
            TileAt(shown, (12, 6)) == 16 && TileAt(shown, (13, 6)) == 16 &&
            TileAt(shown, (14, 6)) == 0
  {
    var n := mins * 6000;
    var ran := Clocks(m, n * (256 - RealtimeModulo(fast)));
    StartAndRun(m, fast, n);
    WholeMinute(mins);
    assert ran.time == Time(mins, 0, 0);
    MinutesTiles(ran.bkg, mins);
  }

  lemma MinutesTiles(bkg: map<Cell, byte>, mins: nat)
    requires mins <= 99
    ensures var shown := PrintTime(bkg, TextBase, Time(mins, 0, 0));
            TileAt(shown, (6, 6)) == 16 + mins / 10 && TileAt(shown, (7, 6)) == 16 + mins % 10 &&
            TileAt(shown, (9, 6)) == 16 && TileAt(shown, (10, 6)) == 16 &&
            TileAt(shown, (12, 6)) == 16 && TileAt(shown, (13, 6)) == 16 &&
            TileAt(shown, (14, 6)) == 0
  {
    PrintTwoDigitTime(bkg, TextBase, Time(mins, 0, 0));
  }

  lemma WholeMinute(mins: nat)
    ensures (mins * 6000) / 6000 == mins && ((mins * 6000) / 100) % 60 == 0 && (mins * 6000) % 100 == 0
  {
  }

  /**
   * `handle_inputs` as written: `current_joypad` is read first and stored as the
   * previous sample, but the A and B edges are taken from two further
   * `joypad()` reads.
   */
  function HandleInputsAsWritten(m: Machine, current: bv8, readA: bv8, readB: bv8, fast: bool): (r: Machine)
    ensures current == readA == readB ==> r == HandleInputs(m, current, fast)
  {
    var afterA :=
      if Rising(readA, m.prevJoypad, J_A) then (if m.stopwatch then Pause(m) else Start(m, fast))
      else m;
    var afterB :=
      if Rising(readB, m.prevJoypad, J_B) && !afterA.stopwatch then Reset(afterA) else afterA;
    afterB.(prevJoypad := current)
  }

  /**
   * A press that lands between the first and the second read is acted on but
   * not remembered: held into the next frame it is seen rising again, and one
   * press starts and immediately stops the stopwatch.
   */
  lemma PressBetweenReadsTogglesTwice(fast: bool)
    ensures var first := HandleInputsAsWritten(Init(fast), 0, J_A, J_A, fast);
            var second := HandleInputsAsWritten(first, J_A, J_A, J_A, fast);
            first.stopwatch && !second.stopwatch && second.cues == [StartStopCue, StartStopCue]
  {
  }
}
