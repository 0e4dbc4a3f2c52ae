/**
 * The time of record kept by the timer interrupt handler (`minutes`, `seconds`,
 * `hundredths`, three `uint8_t` globals) and the carry rule the handler applies
 * on every tick while the stopwatch runs.
 */
module Timekeeping {
  import opened Bytes

  datatype Time = Time(minutes: byte, seconds: byte, hundredths: byte)

  const Zero := Time(0, 0, 0)

  /** Hundredths in one full turn of the minute byte: 100 * 60 * 256. */
  const Cycle: nat := 1536000

  /** Hundredths and seconds already carried, as every tick leaves them. */
  predicate Carried(t: Time) {
    t.hundredths < 100 && t.seconds < 60
  }

  /** The number of hundredths since 00:00:00 that a time stands for. */
  function Elapsed(t: Time): nat {
    t.hundredths + 100 * t.seconds + 6000 * t.minutes
  }

  /** The tick from `t` rolls hundredths over: seconds advance and the tick cue is raised. */
  predicate SecondBoundary(t: Time) {
    Inc(t.hundredths) >= 100
  }

  /**
   * The counter update of one running tick: hundredths advance, 100 of them
   * carry into seconds, 60 seconds carry into minutes, and minutes, a plain
   * byte, wrap only at 256.
   */
  function Tick(t: Time): (r: Time)
    ensures Carried(t) ==> Carried(r)
    ensures Carried(t) ==> (SecondBoundary(t) <==> t.hundredths == 99)
    ensures Carried(t) ==> (SecondBoundary(t) <==> r.seconds != t.seconds)
    ensures !SecondBoundary(t) ==> r.minutes == t.minutes && r.seconds == t.seconds
    ensures SecondBoundary(t) ==> r.hundredths == 0
  {
    var h := Inc(t.hundredths);
    if h >= 100 then
      var s := Inc(t.seconds);
      if s >= 60 then Time(Inc(t.minutes), 0, 0) else Time(t.minutes, s, 0)
    else
      Time(t.minutes, t.seconds, h)
  }

  /** One tick adds exactly one hundredth; the only wrap is the minute byte's, back to 00:00:00. */
  lemma TickAddsOne(t: Time)
    requires Carried(t)
    ensures Elapsed(Tick(t)) == if Elapsed(t) == Cycle - 1 then 0 else Elapsed(t) + 1
  {
  }

  lemma ModSucc(a: nat)
    ensures (a + 1) % Cycle == if a % Cycle == Cycle - 1 then 0 else a % Cycle + 1
  {
  }

  /** The time after `n` running ticks from `t`. */
  function Run(t: Time, n: nat): Time {
    if n == 0 then t else Tick(Run(t, n - 1))
  }

  /** How many of the first `n` running ticks from `t` raise the tick cue. */
  function CueCount(t: Time, n: nat): nat {
    if n == 0 then 0 else CueCount(t, n - 1) + (if SecondBoundary(Run(t, n - 1)) then 1 else 0)
  }

  /** Every tick adds exactly one hundredth, modulo the wrap of the minute byte. */
  lemma {:induction false} RunElapsed(t: Time, n: nat)
    requires Carried(t)
    ensures Carried(Run(t, n))
    ensures Elapsed(Run(t, n)) == (Elapsed(t) + n) % Cycle
  {
    if n > 0 {
      RunElapsed(t, n - 1);
      var u := Run(t, n - 1);
      var a := Elapsed(t) + (n - 1);
      TickAddsOne(u);
      ModSucc(a);
      assert Elapsed(u) == a % Cycle;
      assert a + 1 == Elapsed(t) + n;
    }
  }

  lemma DivSplit(n: nat)
    ensures n / 6000 == (n / 100) / 60
  {
  }

  /** From 00:00:00, `n` running ticks read as n hundredths in decimal fields, minutes modulo 256. */
  lemma {:induction false} RunFromZero(n: nat)
    ensures Run(Zero, n) == Time((n / 6000) % 256, (n / 100) % 60, n % 100)
  {
    if n > 0 {
      var k := n - 1;
      RunFromZero(k);
      DivSplit(k);
      DivSplit(n);
      var t := Run(Zero, k);
      if k % 100 < 99 {
        assert n / 100 == k / 100;
      } else {
        assert n / 100 == k / 100 + 1;
        var q := k / 100;
        if q % 60 < 59 {
          assert (q + 1) / 60 == q / 60;
        } else {
          assert (q + 1) / 60 == q / 60 + 1;
        }
      }
    }
  }

  /** From 00:00:00 the tick cue is raised once per hundred ticks: on n / 100 of the first n. */
  lemma {:induction false} CuesFromZero(n: nat)
    ensures CueCount(Zero, n) == n / 100
  {
    if n > 0 {
      CuesFromZero(n - 1);
      RunFromZero(n - 1);
      assert SecondBoundary(Run(Zero, n - 1)) <==> (n - 1) % 100 == 99;
    }
  }
}
