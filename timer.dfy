/**
 * The console's programmable timer as the firmware drives it: TIMA counts up
 * once per edge of the clock source that TAC selects, and when it overflows
 * from 0xFF it is reloaded from TMA and the timer interrupt is requested.
 */
module HardwareTimer {
  import opened Bytes

  const TAC_STOP: bv8 := 0x00
  const TAC_START_1024: bv8 := 0x04
  const TAC_START_256: bv8 := 0x07
  const TMA_REALTIME_DMG: byte := 0x5C
  const TMA_REALTIME_GBC: byte := 0xAE

  datatype Regs = Regs(tima: byte, tma: byte, tac: bv8)

  /** Bit 2 of TAC enables counting; with it clear the timer is stopped. */
  predicate Enabled(tac: bv8) {
    tac & 0x04 != 0
  }

  /** CPU cycles between two TIMA increments, chosen by bits 1..0 of TAC. */
  function InputDivider(tac: bv8): (d: nat)
    ensures d in {16, 64, 256, 1024}
  {
    var sel := tac & 0x03;
    if sel == 0 then 1024 else if sel == 1 then 16 else if sel == 2 then 64 else 256
  }

  datatype Edge = Edge(regs: Regs, interrupt: bool)

  /** One edge of the selected clock source. */
  function Step(r: Regs): (e: Edge)
    ensures e.regs.tma == r.tma && e.regs.tac == r.tac
    ensures !Enabled(r.tac) ==> e == Edge(r, false)
    ensures e.interrupt <==> Enabled(r.tac) && r.tima == 0xFF
  {
    if !Enabled(r.tac) then Edge(r, false)
    else if r.tima == 0xFF then Edge(r.(tima := r.tma), true)
    else Edge(r.(tima := r.tima + 1), false)
  }

  /** The registers after `k` edges. */
  function Advance(r: Regs, k: nat): Regs {
    if k == 0 then r else Step(Advance(r, k - 1)).regs
  }

  /** How many interrupts `k` edges request. */
  function Interrupts(r: Regs, k: nat): nat {
    if k == 0 then 0 else Interrupts(r, k - 1) + (if Step(Advance(r, k - 1)).interrupt then 1 else 0)
  }

  /** The modulo `set_timer_realtime_reg` loads into TMA and TIMA for the CPU speed. */
  function RealtimeModulo(fast: bool): (m: byte)
    ensures 256 - m == if fast then 82 else 164
  {
    if fast then TMA_REALTIME_GBC else TMA_REALTIME_DMG
  }

  /** The TAC value `start_stopwatch` writes for the CPU speed. */
  function StartTac(fast: bool): (tac: bv8)
    ensures Enabled(tac)
    ensures InputDivider(tac) == if fast then 1024 else 256
  {
    if fast then TAC_START_1024 else TAC_START_256
  }

  /** A stopped timer keeps TIMA, TMA and TAC and requests nothing, however long it waits. */
  lemma {:induction false} StoppedTimerHolds(r: Regs, k: nat)
    requires !Enabled(r.tac)
    ensures Advance(r, k) == r && Interrupts(r, k) == 0
  {
    if k > 0 {
      StoppedTimerHolds(r, k - 1);
    }
  }

  /** Before it overflows, a running TIMA counts up by one per edge and requests nothing. */
  lemma {:induction false} CountsUp(r: Regs, k: nat)
    requires Enabled(r.tac) && r.tima + k <= 0xFF
    ensures Advance(r, k) == r.(tima := r.tima + k) && Interrupts(r, k) == 0
  {
    if k > 0 {
      CountsUp(r, k - 1);
    }
  }

  /**
   * A running timer whose TIMA holds `v` requests its next interrupt after exactly
   * 256 - v edges, and TIMA then holds TMA again: a paused count resumes where it stopped.
   */
  lemma OverflowAfter(r: Regs)
    requires Enabled(r.tac)
    ensures Interrupts(r, 256 - r.tima) == 1
    ensures Advance(r, 256 - r.tima) == r.(tima := r.tma)
  {
    var k := 256 - r.tima;
    CountsUp(r, k - 1);
    LastEdge(r, Advance(r, k - 1), k);
  }

  lemma LastEdge(r: Regs, before: Regs, k: nat)
    requires k > 0 && before == Advance(r, k - 1)
    requires Enabled(before.tac) && before.tima == 0xFF
    ensures Advance(r, k) == before.(tima := before.tma)
    ensures Interrupts(r, k) == Interrupts(r, k - 1) + 1
  {
  }

  /**
   * Once loaded by `set_timer_realtime_reg` and started by `start_stopwatch`, the
   * timer interrupts every 164 edges of CPU/256 at normal speed and every 82 edges of
   * CPU/1024 at double speed: 83968 double-speed cycles in both modes, and the
   * registers are back where they started.
   */
  lemma RealtimePeriod(fast: bool)
    ensures var r := Regs(RealtimeModulo(fast), RealtimeModulo(fast), StartTac(fast));
            var k := 256 - RealtimeModulo(fast);
            Interrupts(r, k) == 1 && Advance(r, k) == r &&
            (forall j :: 0 < j < k ==> Interrupts(r, j) == 0) &&
            k * InputDivider(r.tac) * (if fast then 1 else 2) == 83968
  {
    var r := Regs(RealtimeModulo(fast), RealtimeModulo(fast), StartTac(fast));
    OverflowAfter(r);
    forall j | 0 < j < 256 - RealtimeModulo(fast)
      ensures Interrupts(r, j) == 0
    {
      CountsUp(r, j);
    }
  }

  /** Edges compose: `a + b` edges are `a` edges followed by `b` more. */
  lemma {:induction false} AdvanceSplit(r: Regs, a: nat, b: nat)
    ensures Advance(r, a + b) == Advance(Advance(r, a), b)
    ensures Interrupts(r, a + b) == Interrupts(r, a) + Interrupts(Advance(r, a), b)
  {
    if b > 0 {
      AdvanceSplit(r, a, b - 1);
    }
  }

  /** From its realtime configuration the running timer requests exactly `n` interrupts in `n` periods. */
  lemma {:induction false} RealtimeInterrupts(fast: bool, n: nat)
    ensures var r := Regs(RealtimeModulo(fast), RealtimeModulo(fast), StartTac(fast));
            var k := 256 - RealtimeModulo(fast);
            Interrupts(r, n * k) == n && Advance(r, n * k) == r
  {
    var r := Regs(RealtimeModulo(fast), RealtimeModulo(fast), StartTac(fast));
    var k := 256 - RealtimeModulo(fast);
    if n > 0 {
      RealtimeInterrupts(fast, n - 1);
      assert n * k == (n - 1) * k + k;
      AdvanceSplit(r, (n - 1) * k, k);
      RealtimePeriod(fast);
    }
  }
}
