/**
 * The firmware's globals as one object and its routines as methods that
 * update them in place. Each routine that changes the globals is proved to
 * change the state exactly as the matching function of module Control says;
 * the background writers `PutText`, `DrawNumbersAscii` and `InitScene` change
 * only `bkg` and are proved against `Text`, `Paint` of `NumberTiles`, and
 * `Scene` of module Display and Control.
 */
module Firmware {
  import opened Bytes
  import opened Timekeeping
  import opened HardwareTimer
  import opened Display
  import opened Control

  class Stopwatch {
    /** `is_cpu_fast`, fixed at boot by the CPU probe. */
    const isCpuFast: bool

    var minutes: byte
    var seconds: byte
    var hundredths: byte
    var stopwatch: bool
    var playTickSfx: bool
    /** The static `prev_joypad` of `handle_inputs`. */
    var prevJoypad: bv8
    /** The timer registers TIMA, TMA and TAC. */
    var tima: byte
    var tma: byte
    var tac: bv8
    var numZeros: byte
    /** The background tile map. */
    var bkg: map<Cell, byte>
    /** The sound cues fired so far. */
    var cues: seq<Cue>

    function State(): Machine
      reads this
    {
      Machine(Time(minutes, seconds, hundredths), stopwatch, playTickSfx, prevJoypad,
              Regs(tima, tma, tac), numZeros, bkg, cues)
    }

    ghost predicate Valid()
      reads this
    {
      Inv(State(), isCpuFast)
    }

    /** Power-on: zeroed globals, then `set_timer_realtime_reg` and `init_scene` from `init_game`. */
    constructor (fast: bool)
      ensures isCpuFast == fast
      ensures State() == Init(fast) && Valid()
    {
      isCpuFast := fast;
      minutes, seconds, hundredths := 0, 0, 0;
      stopwatch, playTickSfx := false, false;
      prevJoypad := 0;
      tima, tma, tac := 0, 0, TAC_STOP;
      numZeros := 0;
      bkg := map[];
      cues := [];
      new;
      SetTimerRealtimeReg();
      InitScene();
    }

    /** `gotoxy(x, y); printf(s)`. */
    method PutText(x: nat, y: nat, s: string)
      modifies this`bkg
      ensures bkg == Text(old(bkg), x, y, s)
    {
      bkg := Text(bkg, x, y, s);
    }

    /** `init_scene`. */
    method InitScene()
      requires bkg == map[]
      modifies this`bkg
      ensures bkg == Scene()
    {
      PutText(1, 1, "GB STOPWATCH :");
      PutText(1, 2, "------------------");
      PutText(6, 6, "00:00:00");
      PutText(1, 14, "------------------");
      PutText(5, 15, "A:   Start");
      PutText(5, 16, "B:   Reset");
    }

    /** `set_timer_realtime_reg`. */
    method SetTimerRealtimeReg()
      modifies this
      ensures State() == SetRealtime(old(State()), isCpuFast)
    {
      if !isCpuFast {
        tma := TMA_REALTIME_DMG;
        tima := TMA_REALTIME_DMG;
      } else {
        tma := TMA_REALTIME_GBC;
        tima := TMA_REALTIME_GBC;
      }
    }

    /** `stopwatch_timer_isr`. */
    method TimerIsr()
      modifies this
      ensures State() == Isr(old(State()))
    {
      if stopwatch {
        hundredths := Inc(hundredths);
        if hundredths >= 100 {
          hundredths := 0;
          seconds := Inc(seconds);
          playTickSfx := true;
          if seconds >= 60 {
            seconds := 0;
            minutes := Inc(minutes);
          }
        }
      }
    }

    /** One edge of the clock source TAC selects; on overflow TIMA is reloaded and the handler runs. */
    method TimerClock()
      requires Valid()
      modifies this
      ensures Valid()
      ensures State() == Clock(old(State()))
    {
      if tac & 0x04 != 0 {
        if tima == 0xFF {
          tima := tma;
          TimerIsr();
        } else {
          tima := tima + 1;
        }
      }
      ClockKeepsInv(old(State()), isCpuFast);
    }

    /** `reset_stopwatch`. */
    method ResetStopwatch()
      modifies this
      ensures State() == Reset(old(State()))
    {
      cues := cues + [ResetCue];
      stopwatch := false;
      minutes := 0;
      seconds := 0;
      hundredths := 0;
      PutText(6, 6, "00:00:00");
    }

    /** `pause_stopwatch`. */
    method PauseStopwatch()
      modifies this
      ensures State() == Pause(old(State()))
    {
      tac := TAC_STOP;
      stopwatch := false;
      cues := cues + [StartStopCue];
      PutText(10, 15, "Start");
      PutText(5, 16, "B:   Reset");
    }

    /** `start_stopwatch`. */
    method StartStopwatch()
      modifies this
      ensures State() == Start(old(State()), isCpuFast)
    {
      tac := if isCpuFast then TAC_START_1024 else TAC_START_256;
      stopwatch := true;
      cues := cues + [StartStopCue];
      PutText(10, 15, "Stop ");
      PutText(5, 16, "          ");
    }

    /** `handle_inputs`, given the joypad sample of this frame. */
    method HandleInputs(pad: bv8)
      modifies this
      ensures State() == Control.HandleInputs(old(State()), pad, isCpuFast)
    {
      var current := pad;
      if Rising(pad, prevJoypad, J_A) {
        if stopwatch {
          PauseStopwatch();
        } else {
          StartStopwatch();
        }
      }
      if Rising(pad, prevJoypad, J_B) && !stopwatch {
        ResetStopwatch();
      }
      prevJoypad := current;
    }

    /** `draw_numbers_ascii`: `numZeros` zero tiles, then one tile per digit of `buffer`, in consecutive cells. */
    method DrawNumbersAscii(x: nat, y: nat, buffer: string)
      modifies this`bkg
      ensures bkg == Paint(old(bkg), x, y, NumberTiles(TextBase, numZeros, buffer))
    {
      var col := x;
      for j := 0 to numZeros
        invariant col == x + j
        invariant bkg == Paint(old(bkg), x, y, seq(j, _ => ZeroTile(TextBase)))
      {
        ghost var written := seq(j, _ => ZeroTile(TextBase));
        assert seq(j + 1, _ => ZeroTile(TextBase)) == written + [ZeroTile(TextBase)];
        PaintOneMore(old(bkg), x, y, written, ZeroTile(TextBase));
        bkg := bkg[(col, y) := Trunc(TextBase + 16)];
        col := col + 1;
      }
      var i := 0;
      assert buffer[..0] == [];
      assert NumberTiles(TextBase, numZeros, buffer[..0]) == seq(numZeros, _ => ZeroTile(TextBase));
      while i < |buffer|
        invariant 0 <= i <= |buffer|
        invariant bkg == Paint(old(bkg), x, y, NumberTiles(TextBase, numZeros, buffer[..i]))
        invariant col == x + |NumberTiles(TextBase, numZeros, buffer[..i])|
      {
        ghost var written := NumberTiles(TextBase, numZeros, buffer[..i]);
        assert buffer[..i + 1][..i] == buffer[..i];
        if IsDigit(buffer[i]) {
          var tile := CharTile(TextBase, buffer[i]);
          assert NumberTiles(TextBase, numZeros, buffer[..i + 1]) == written + [tile];
          PaintOneMore(old(bkg), x, y, written, tile);
          bkg := bkg[(col, y) := tile];
          col := col + 1;
        } else {
          assert NumberTiles(TextBase, numZeros, buffer[..i + 1]) == written;
        }
        i := i + 1;
      }
      assert buffer[..i] == buffer;
    }

    /** `print_stopwatch`. */
    method PrintStopwatch()
      modifies this`bkg, this`numZeros
      ensures State() == Control.PrintStopwatch(old(State()))
    {
      numZeros := NumZeros(minutes);
      var bufferMinutes := Uitoa(minutes);
      DrawNumbersAscii(6, 6, bufferMinutes);

      numZeros := NumZeros(seconds);
      var bufferSeconds := Uitoa(seconds);
      DrawNumbersAscii(9, 6, bufferSeconds);

      numZeros := NumZeros(hundredths);
      var bufferHundredths := Uitoa(hundredths);
      DrawNumbersAscii(12, 6, bufferHundredths);

      bkg := bkg[(14, 6) := 0];
    }

    /** `handle_stopwatch`. */
    method HandleStopwatch()
      modifies this
      ensures State() == Control.HandleStopwatch(old(State()))
    {
      if stopwatch {
        PrintStopwatch();
        if playTickSfx {
          cues := cues + [TickCue];
          playTickSfx := false;
        }
      }
    }

    /**
     * One pass of the main loop on this frame's joypad sample. `vsync` waits
     * while `edges` edges of the timer's clock source arrive, each of which
     * may run the interrupt handler.
     */
    method RunFrame(pad: bv8, edges: nat)
      requires Valid()
      modifies this
      ensures Valid()
      ensures State() == Frame(old(State()), pad, isCpuFast, edges)
    {
      HandleInputs(pad);
      FrameKeepsInv(old(State()), pad, isCpuFast, edges);
      ghost var inputs := State();
      for i := 0 to edges
        invariant Valid()
        invariant State() == Clocks(inputs, i)
      {
        TimerClock();
      }
      HandleStopwatch();
    }
  }

  /** Painting one more tile writes it in the next cell of the row. */
  lemma PaintOneMore(bkg: map<Cell, byte>, x: nat, y: nat, tiles: seq<byte>, t: byte)
    ensures Paint(bkg, x, y, tiles + [t]) == Paint(bkg, x, y, tiles)[(x + |tiles|, y) := t]
  {
  }
}
