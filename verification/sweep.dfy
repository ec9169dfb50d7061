/** The sweep loop both experiments run: `loops` passes over the sweep axis,
    one point at a time. At each point the loop checks for an interruption
    request, compiles the point's pulse program, loads and starts it, sets up
    the synthesizer, settles, reads the lock-in, records the reading and the
    progress, stops and resets the generator and settles again.

    `Run` follows the source's nested loops, including the `break` that only
    leaves the inner loop. `Expected` is a flat reference: the points are
    numbered q = pass·|axis| + i, and the run is whatever the points before the
    first halting point (interrupted, or failing to compile) contribute.
    `RunIsFlat` proves the two agree when the interruption request is sticky. */
module Sweep {
  import opened Wrappers
  import opened Instructions
  import opened Hardware

  /** What a sweep point asks of the hardware: the pulse program compiled for
      it and the synthesizer frequency (Hz). */
  datatype Point = Point(program: Result<seq<Instr>, CompileError>, freqHz: real)

  /** One run. `read(q)` is the lock-in reading taken at point q and
      `interrupted(q)` whether an interruption has been requested by the time
      point q is checked; both stand for the devices and the user. */
  datatype Config<!V> = Config(
    axis: seq<V>,
    loops: int,
    point: V -> Point,
    powerDbm: real,
    settle: real,
    read: nat -> real,
    interrupted: nat -> bool)

  /** What the instruments and the user contribute to a run: the lock-in's
      time constant (s), its reading at each point, and whether an
      interruption has been requested by the time each point is checked. */
  datatype Bench = Bench(tauLockin: real, read: nat -> real, interrupted: nat -> bool)

  /** The visited axis values and readings, the progress fractions reported,
      and the hardware trace. */
  datatype Log<V> = Log(values: seq<V>, readings: seq<real>, progress: seq<real>, trace: seq<Event>)

  /** How a run ends: it returns its log, or raises a compile error; the hardware trace up
      to the error is kept, the partial results are lost. */
  datatype RunEnd<V> = Finished(log: Log<V>) | Raised(error: CompileError, trace: seq<Event>)

  /** Settle time in seconds from the lock-in time constant: fifteen time
      constants, but never less than one second. */
  function SettleTime(tauLockin: real): (w: real)
    ensures w >= 1.0 && w >= 15.0 * tauLockin
    ensures w == 1.0 || w == 15.0 * tauLockin
  {
    if 15.0 * tauLockin > 1.0 then 15.0 * tauLockin else 1.0
  }

  /** Number of passes the outer `while loop_count < loops` makes. */
  function Passes<V>(c: Config<V>): nat {
    Max0(c.loops)
  }

  /** p·n as repeated addition. Positions in the sweep are written with it
      so that they stay linear; `TimesIsProduct` relates it to `*`. */
  function Times(p: nat, n: nat): nat {
    if p == 0 then 0 else Times(p - 1, n) + n
  }

  lemma {:induction false} TimesIsProduct(p: nat, n: nat)
    ensures Times(p, n) == p * n
  {
    if p > 0 {
      TimesIsProduct(p - 1, n);
    }
  }

  lemma {:induction false} TimesZero(p: nat, n: nat)
    ensures n == 0 ==> Times(p, n) == 0
  {
    if p > 0 {
      TimesZero(p - 1, n);
    }
  }

  /** A pass before pass P ends no later than pass P begins. */
  lemma {:induction false} TimesBelow(p: nat, P: nat, n: nat)
    requires p < P
    ensures Times(p, n) + n <= Times(P, n)
  {
    if p < P - 1 {
      TimesBelow(p, P - 1, n);
    }
  }

  /** Number of points a full run visits: loops·|axis|. */
  function Total<V>(c: Config<V>): nat {
    Times(Passes(c), |c.axis|)
  }

  /** Progress reported after point q: (q + 1) / (loops·|axis|). */
  function Fraction<V>(c: Config<V>, q: nat): real
    requires q < Total(c)
  {
    (q + 1) as real / Total(c) as real
  }

  /** Element q of the axis repeated pass after pass. */
  function Cycle<V>(a: seq<V>, q: nat): V
    requires |a| > 0
    decreases q
  {
    if q < |a| then a[q] else Cycle(a, q - |a|)
  }

  /** Index i of pass p. */
  lemma {:induction false} CycleAt<V>(a: seq<V>, p: nat, i: nat)
    requires i < |a|
    ensures Cycle(a, Times(p, |a|) + i) == a[i]
  {
    if p > 0 {
      CycleAt(a, p - 1, i);
    }
  }

  /** Quotient and remainder are determined by x == d·n + r, 0 <= r < n. */
  lemma DivModUnique(x: int, n: int, d: int, r: int)
    requires n > 0 && 0 <= r < n && x == d * n + r
    ensures x / n == d && x % n == r
  {
    var d', r' := x / n, x % n;
    assert (d' - d) * n == r - r';
    MulBounds(d' - d, n);
  }

  lemma MulBounds(k: int, n: int)
    requires n >= 0
    ensures k >= 1 ==> k * n >= n
    ensures k <= -1 ==> k * n <= -n
  {
  }

  /** One period further on: the quotient grows by one, the remainder stays. */
  lemma ShiftDivMod(x: int, n: int)
    requires n > 0
    ensures (x + n) / n == x / n + 1 && (x + n) % n == x % n
  {
    DivModUnique(x + n, n, x / n + 1, x % n);
  }

  lemma {:induction false} CycleMod<V>(a: seq<V>, q: nat)
    requires |a| > 0
    ensures Cycle(a, q) == a[q % |a|]
    decreases q
  {
    if q >= |a| {
      CycleMod(a, q - |a|);
      ShiftDivMod(q - |a|, |a|);
    }
  }

  /** The pass point q belongs to. */
  function PassIndex(q: nat, n: nat): nat
    requires n > 0
    decreases q
  {
    if q < n then 0 else 1 + PassIndex(q - n, n)
  }

  lemma {:induction false} PassIndexAt(p: nat, n: nat, i: nat)
    requires i < n
    ensures PassIndex(Times(p, n) + i, n) == p
  {
    if p > 0 {
      PassIndexAt(p - 1, n, i);
    }
  }

  lemma {:induction false} PassIndexBelow(q: nat, P: nat, n: nat)
    requires n > 0 && q < Times(P, n)
    ensures PassIndex(q, n) < P
  {
    if q >= n {
      PassIndexBelow(q - n, P - 1, n);
    }
  }

  lemma {:induction false} PassIndexDiv(q: nat, n: nat)
    requires n > 0
    ensures PassIndex(q, n) == q / n
    decreases q
  {
    if q >= n {
      PassIndexDiv(q - n, n);
      ShiftDivMod(q - n, n);
    }
  }

  /** Set up the synthesizer for `v`, settle and read the lock-in. */
  function Acquire<V>(c: Config<V>, v: V): seq<Event> {
    [SetFreq(SynthChannel, c.point(v).freqHz), SetPower(SynthChannel, c.powerDbm), RfOn(SynthChannel),
     Sleep(c.settle), Read]
  }

  /** The events of one sweep point that loads `s`: load and start, acquire,
      then stop and reset the generator and settle again. */
  function PointEvents<V>(c: Config<V>, v: V, s: seq<Instr>): seq<Event> {
    Load(s) + Acquire(c, v) + Release(c.settle)
  }

  /** Load `s` into the stopped generator and start it. */
  function Load(s: seq<Instr>): seq<Event> {
    [Program(s), Start]
  }

  /** Stop and reset the generator, then settle. */
  function Release(settle: real): seq<Event> {
    [Stop, Reset, Sleep(settle)]
  }

  /** Visit point q, whose axis value is `v` and whose program is `s`. */
  function Visit<V>(c: Config<V>, q: nat, v: V, s: seq<Instr>, log: Log<V>): Log<V>
    requires q < Total(c)
  {
    Log(log.values + [v],
        log.readings + [c.read(q)],
        log.progress + [Fraction(c, q)],
        log.trace + PointEvents(c, v, s))
  }

  function Interrupt<V>(log: Log<V>): Log<V> {
    log.(trace := log.trace + [UserInterrupt])
  }

  /** The inner `for i, v in enumerate(axis)` of pass `pass`, from index `i`. */
  function RunPass<V>(c: Config<V>, pass: nat, i: nat, log: Log<V>): RunEnd<V>
    requires pass < c.loops && i <= |c.axis|
    decreases |c.axis| - i
  {
    if i == |c.axis| then Finished(log)
    else
      var q := Times(pass, |c.axis|) + i;
      if c.interrupted(q) then Finished(Interrupt(log))
      else match c.point(c.axis[i]).program
        case Failure(e) => Raised(e, log.trace)
        case Success(s) =>
          TimesBelow(pass, Passes(c), |c.axis|);
          RunPass(c, pass, i + 1, Visit(c, q, c.axis[i], s, log))
  }

  /** The outer `while loop_count < loops`, from pass `pass`. */
  function RunPasses<V>(c: Config<V>, pass: nat, log: Log<V>): RunEnd<V>
    decreases Passes(c) - pass
  {
    if pass >= c.loops then Finished(log)
    else match RunPass(c, pass, 0, log)
      case Raised(e, t) => Raised(e, t)
      case Finished(l) => RunPasses(c, pass + 1, l)
  }

  /** `run`: stop and reset the generator, then sweep. */
  function Run<V>(c: Config<V>): RunEnd<V> {
    RunPasses(c, 0, Log([], [], [], [Stop, Reset]))
  }

  // ---------------------------------------------------------------------
  // The flat reference

  /** The axis value of point q. */
  function Scheduled<V>(c: Config<V>, q: nat): V
    requires q < Total(c)
  {
    TimesZero(Passes(c), |c.axis|);
    Cycle(c.axis, q)
  }

  /** The sweep cannot go past point q: it is the end, it is interrupted, or
      its program does not compile. */
  predicate Halts<V>(c: Config<V>, q: nat)
    requires q <= Total(c)
  {
    q == Total(c) || c.interrupted(q) || c.point(Scheduled(c, q)).program.Failure?
  }

  /** The first halting point at or after q. */
  function FirstHalt<V>(c: Config<V>, q: nat): (h: nat)
    requires q <= Total(c)
    ensures q <= h <= Total(c) && Halts(c, h)
    decreases Total(c) - q
  {
    if Halts(c, q) then q else FirstHalt(c, q + 1)
  }

  /** The stream loaded at point q (empty if it does not compile, which the
      reference never uses). */
  function StreamAt<V>(c: Config<V>, q: nat): seq<Instr>
    requires q < Total(c)
  {
    match c.point(Scheduled(c, q)).program
    case Success(s) => s
    case Failure(_) => []
  }

  /** The axis values of points 0 .. k-1. */
  function Values<V>(c: Config<V>, k: nat): seq<V>
    requires k <= Total(c)
  {
    if k == 0 then [] else Values(c, k - 1) + [Scheduled(c, k - 1)]
  }

  /** The readings taken at points 0 .. k-1. */
  function Readings<V>(c: Config<V>, k: nat): seq<real>
    requires k <= Total(c)
  {
    if k == 0 then [] else Readings(c, k - 1) + [c.read(k - 1)]
  }

  /** The progress reported after each of points 0 .. k-1. */
  function Progress<V>(c: Config<V>, k: nat): seq<real>
    requires k <= Total(c)
  {
    if k == 0 then [] else Progress(c, k - 1) + [Fraction(c, k - 1)]
  }

  /** The hardware trace once points 0 .. k-1 were visited: the initial stop
      and reset, then each point's events. */
  function Trace<V>(c: Config<V>, k: nat): seq<Event>
    requires k <= Total(c)
  {
    if k == 0 then [Stop, Reset]
    else Trace(c, k - 1) + PointEvents(c, Scheduled(c, k - 1), StreamAt(c, k - 1))
  }

  /** The log after points 0 .. k-1 were visited in order. */
  function Flat<V>(c: Config<V>, k: nat): Log<V>
    requires k <= Total(c)
  {
    Log(Values(c, k), Readings(c, k), Progress(c, k), Trace(c, k))
  }

  /** m interruption lines. */
  function Notices(m: int): seq<Event>
    decreases m
  {
    if m <= 0 then [] else [UserInterrupt] + Notices(m - 1)
  }

  /** The outcome of a run whose first halting point is h: a compile error at
      h raises; otherwise the points before h are kept and, if h is an
      interruption, every pass from h's onwards reports it once. */
  function Closing<V>(c: Config<V>, h: nat): RunEnd<V>
    requires h <= Total(c) && Halts(c, h)
  {
    if h < Total(c) && !c.interrupted(h) then
      Raised(c.point(Scheduled(c, h)).program.error, Trace(c, h))
    else
      var m := if h < Total(c) then Remaining(c, h) else 0;
      Finished(Flat(c, h).(trace := Trace(c, h) + Notices(m)))
  }

  /** Passes from point q's onwards. */
  function Remaining<V>(c: Config<V>, q: nat): int
    requires q < Total(c)
  {
    TimesZero(Passes(c), |c.axis|);
    Passes(c) - PassIndex(q, |c.axis|)
  }

  function Expected<V>(c: Config<V>): RunEnd<V> {
    Closing(c, FirstHalt(c, 0))
  }

  /** Once requested, an interruption stays requested. */
  ghost predicate Monotone(f: nat -> bool) {
    forall a: nat, b: nat :: a <= b && f(a) ==> f(b)
  }

  // ---------------------------------------------------------------------
  // Agreement of the nested loops with the flat reference

  lemma {:induction false} FirstHaltSkip<V>(c: Config<V>, a: nat, b: nat)
    requires a <= b <= Total(c) && b <= FirstHalt(c, a)
    ensures FirstHalt(c, b) == FirstHalt(c, a)
    decreases b - a
  {
    if a < b {
      FirstHaltSkip(c, a + 1, b);
    }
  }

  /** How a pass that would end at point e ends when the first halting point
      is h. */
  function PassEnd<V>(c: Config<V>, e: nat, h: nat): RunEnd<V>
    requires e <= Total(c) && h <= Total(c) && Halts(c, h)
  {
    if h >= e then Finished(Flat(c, e))
    else if c.interrupted(h) then Finished(Interrupt(Flat(c, h)))
    else Raised(c.point(Scheduled(c, h)).program.error, Trace(c, h))
  }

  /** Visiting point q extends the log of the points before it by point q. */
  lemma VisitIsFlat<V>(c: Config<V>, q: nat, s: seq<Instr>)
    requires q < Total(c) && c.point(Scheduled(c, q)).program == Success(s)
    ensures Visit(c, q, Scheduled(c, q), s, Flat(c, q)) == Flat(c, q + 1)
  {
    assert StreamAt(c, q) == s;
  }

  /** One pass from index i, given the log of all earlier points. */
  lemma {:induction false} PassAgrees<V>(c: Config<V>, p: nat, i: nat, log: Log<V>)
    requires p < c.loops && i <= |c.axis|
    requires Times(p + 1, |c.axis|) <= Total(c)
    requires log == Flat(c, Times(p, |c.axis|) + i)
    ensures RunPass(c, p, i, log) == PassEnd(c, Times(p + 1, |c.axis|), FirstHalt(c, Times(p, |c.axis|) + i))
    decreases |c.axis| - i
  {
    var n := |c.axis|;
    var q := Times(p, n) + i;
    if i == n {
      assert RunPass(c, p, i, log) == Finished(log);
    } else {
      CycleAt(c.axis, p, i);
      assert Scheduled(c, q) == c.axis[i];
      if c.interrupted(q) {
        assert FirstHalt(c, q) == q;
        assert RunPass(c, p, i, log) == Finished(Interrupt(log));
      } else if c.point(c.axis[i]).program.Failure? {
        assert FirstHalt(c, q) == q;
        assert RunPass(c, p, i, log) == Raised(c.point(c.axis[i]).program.error, log.trace);
      } else {
        var s := c.point(c.axis[i]).program.value;
        var next := Visit(c, q, c.axis[i], s, log);
        VisitIsFlat(c, q, s);
        assert FirstHalt(c, q) == FirstHalt(c, q + 1);
        assert RunPass(c, p, i, log) == RunPass(c, p, i + 1, next);
        PassAgrees(c, p, i + 1, next);
      }
    }
  }

  /** After an interruption every remaining pass breaks at its first point. */
  lemma {:induction false} AllInterrupted<V>(c: Config<V>, p: nat, log: Log<V>, h: nat)
    requires Monotone(c.interrupted) && c.interrupted(h)
    requires |c.axis| > 0 && h <= Times(p, |c.axis|)
    ensures RunPasses(c, p, log) == Finished(log.(trace := log.trace + Notices(Passes(c) - p)))
    decreases Passes(c) - p
  {
    if p >= c.loops {
      assert log.trace + [] == log.trace;
    } else {
      assert c.interrupted(Times(p, |c.axis|) + 0);
      assert RunPass(c, p, 0, log) == Finished(Interrupt(log));
      AllInterrupted(c, p + 1, Interrupt(log), h);
      assert Notices(Passes(c) - p) == [UserInterrupt] + Notices(Passes(c) - (p + 1));
      assert log.trace + [UserInterrupt] + Notices(Passes(c) - (p + 1))
          == log.trace + Notices(Passes(c) - p);
    }
  }

  lemma {:induction false} PassesAgree<V>(c: Config<V>, p: nat, log: Log<V>)
    requires Monotone(c.interrupted)
    requires p <= Passes(c) && Times(p, |c.axis|) <= Total(c)
    requires log == Flat(c, Times(p, |c.axis|))
    ensures RunPasses(c, p, log) == Closing(c, FirstHalt(c, Times(p, |c.axis|)))
    decreases Passes(c) - p
  {
    var n := |c.axis|;
    if p >= c.loops {
      assert Times(p, n) == Total(c);
      assert FirstHalt(c, Times(p, n)) == Total(c);
      assert log.trace + [] == log.trace;
      assert RunPasses(c, p, log) == Finished(log);
      assert Closing(c, Total(c)) == Finished(log);
    } else {
      var h, e := FirstHalt(c, Times(p, n)), Times(p + 1, n);
      TimesBelow(p, Passes(c), n);
      PassAgrees(c, p, 0, log);
      assert RunPass(c, p, 0, log) == PassEnd(c, e, h);
      if h >= e {
        PassesContinue(c, p, log);
      } else if c.interrupted(h) {
        var next := Interrupt(Flat(c, h));
        assert RunPass(c, p, 0, log) == Finished(next);
        assert RunPasses(c, p, log) == RunPasses(c, p + 1, next);
        AllInterrupted(c, p + 1, next, h);
        InterruptedClosing(c, p, h);
      } else {
        assert RunPasses(c, p, log) == RunPass(c, p, 0, log);
      }
    }
  }

  /** A pass that runs to its end hands the log of all its points to the
      next pass. */
  lemma {:induction false} PassesContinue<V>(c: Config<V>, p: nat, log: Log<V>)
    requires Monotone(c.interrupted)
    requires p < c.loops && Times(p + 1, |c.axis|) <= Total(c)
    requires log == Flat(c, Times(p, |c.axis|))
    requires Times(p + 1, |c.axis|) <= FirstHalt(c, Times(p, |c.axis|))
    requires RunPass(c, p, 0, log) == Finished(Flat(c, Times(p + 1, |c.axis|)))
    ensures RunPasses(c, p, log) == Closing(c, FirstHalt(c, Times(p, |c.axis|)))
    decreases Passes(c) - p, 0
  {
    var n := |c.axis|;
    var next := Flat(c, Times(p + 1, n));
    assert RunPasses(c, p, log) == RunPasses(c, p + 1, next);
    FirstHaltSkip(c, Times(p, n), Times(p + 1, n));
    PassesAgree(c, p + 1, next);
  }

  /** Closing at an interruption in pass p: one line for this pass, then one
      for each remaining pass. */
  lemma InterruptedClosing<V>(c: Config<V>, p: nat, h: nat)
    requires Times(p, |c.axis|) <= h < Times(p + 1, |c.axis|) <= Total(c) && c.interrupted(h)
    ensures Closing(c, h)
         == Finished(Flat(c, h).(trace := Trace(c, h) + [UserInterrupt] + Notices(Passes(c) - (p + 1))))
  {
    var n := |c.axis|;
    PassIndexAt(p, n, h - Times(p, n));
    PassIndexBelow(h, Passes(c), n);
    assert Remaining(c, h) == Passes(c) - p;
    assert Notices(Passes(c) - p) == [UserInterrupt] + Notices(Passes(c) - (p + 1));
    assert Trace(c, h) + [UserInterrupt] + Notices(Passes(c) - (p + 1))
        == Trace(c, h) + Notices(Passes(c) - p);
  }

  /** The nested loops with their `break` visit exactly the points before the
      first halting point, in order, when the interruption request is sticky. */
  lemma RunIsFlat<V>(c: Config<V>)
    requires Monotone(c.interrupted)
    ensures Run(c) == Expected(c)
  {
    PassesAgree(c, 0, Flat(c, 0));
  }
}
