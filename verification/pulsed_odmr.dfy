/** Pulsed ODMR: the duty-cycle differential pulse program and its frequency sweep.

    With N = (T_ref/2)/w slots per half period, the reference half holds the
    lock-in reference line high while laser and microwave alternate (laser
    first); the differential half keeps the same slot parity but drops the
    reference and the microwave, so a laser slot alternates with an idle one.
    The last slot is the BRANCH back to address 0. */
module PulsedOdmr {
  import opened Wrappers
  import opened Instructions
  import Hardware
  import Sweep
  import SweepFacts

  /** The key of the selector dictionary is the parity flag: +1 picks the
      laser, -1 the microwave I channel. */
  function Selector(a: int): Mask {
    if a == 1 then ChLaser else ChMwI
  }

  /** The parity flag after `k` sign flips `a := a * -1`, starting from `a`. */
  function Flips(a: int, k: nat): int {
    if k == 0 then a else Flips(a, k - 1) * -1
  }

  lemma {:induction false} FlipsParity(a: int, k: nat)
    ensures Flips(a, k) == if k % 2 == 0 then a else -a
  {
    if k > 0 {
      FlipsParity(a, k - 1);
    }
  }

  /** The flag tested by the closing `if`: it has been flipped once per
      reference slot and once per differential slot before the last one.
      It is -1, so that a lone BRANCH closes the program, exactly when N >= 1;
      the laser-then-branch closing runs only when N <= 0. */
  lemma ClosingFlag(n: int)
    ensures Flips(1, Max0(n) + Max0(n - 1)) == -1 <==> n >= 1
  {
    FlipsParity(1, Max0(n) + Max0(n - 1));
  }

  /** Slot `k` of a program with `n >= 1` slots per half, every slot `d` ns long. */
  function Slot(n: int, k: int, d: int): Instr {
    if k < n then
      Instr(ChRef | (if k % 2 == 0 then ChLaser else ChMwI), Continue, 0, d)
    else if k < 2 * n - 1 then
      Instr(if k % 2 == 0 then ChLaser else 0, Continue, 0, d)
    else
      Instr(0, Branch, 0, d)
  }

  /** The whole stream for `n` slots per half. With n <= 0 both loops are
      empty and only the laser slot and the branch are emitted. */
  function Stream(n: int, d: int): seq<Instr> {
    if n >= 1 then seq(2 * n, k => Slot(n, k, d))
    else [Instr(ChLaser, Continue, 0, d), Instr(0, Branch, 0, d)]
  }

  /** Whether half the reference period `tref` (us) is a whole number of
      pulses of width `pulse` (us). On exact rationals `(tref/2) % pulse == 0`
      holds exactly when 2·pulse divides tref. */
  predicate Divisible(tref: int, pulse: int)
    requires pulse != 0
  {
    tref % (2 * pulse) == 0
  }

  /** Slots per half period. */
  function SlotCount(tref: int, pulse: int): int
    requires pulse != 0
  {
    tref / (2 * pulse)
  }

  /** The program compiled for reference period `tref` and pulse width `pulse` (us). */
  function Program(tref: int, pulse: int): Result<seq<Instr>, CompileError> {
    if pulse == 0 then Failure(ZeroPulse)
    else if !Divisible(tref, pulse) then Failure(NotDivisible)
    else Success(Stream(SlotCount(tref, pulse), Ns(pulse)))
  }

  /** `pulse_creation`: validate, then emit the reference slots and the
      differential slots in two loops that thread the parity flag `a`, and
      close according to the flag. Nothing is emitted when validation fails. */
  method CompileOdmr(tref: int, pulse: int) returns (r: Result<seq<Instr>, CompileError>)
    ensures r.Failure? <==> pulse == 0 || !Divisible(tref, pulse)
    ensures r == Program(tref, pulse)
  {
    if pulse == 0 {
      return Failure(ZeroPulse);
    }
    var d := Ns(pulse);
    if tref % (2 * pulse) != 0 {
      return Failure(NotDivisible);
    }
    var n := tref / (2 * pulse);
    var out: seq<Instr> := [];
    var a := 1;
    var i := 0;
    while i < n
      invariant 0 <= i <= Max0(n)
      invariant |out| == i
      invariant a == Flips(1, i)
      invariant forall k :: 0 <= k < i ==> out[k] == Slot(n, k, d)
    {
      FlipsParity(1, i);
      out := out + [Instr(ChRef | Selector(a), Continue, 0, d)];
      a := a * -1;
      i := i + 1;
    }
    i := 0;
    while i < n - 1
      invariant 0 <= i <= Max0(n - 1)
      invariant |out| == Max0(n) + i
      invariant a == Flips(1, Max0(n) + i)
      invariant forall k :: 0 <= k < |out| ==> out[k] == Slot(n, k, d)
    {
      FlipsParity(1, Max0(n) + i);
      if a == -1 {
        out := out + [Instr(0, Continue, 0, d)];
      } else {
        out := out + [Instr(ChLaser, Continue, 0, d)];
      }
      a := a * -1;
      i := i + 1;
    }
    ClosingFlag(n);
    if a == -1 {
      out := out + [Instr(0, Branch, 0, d)];
      assert |out| == 2 * n;
      assert forall k :: 0 <= k < |out| ==> out[k] == Slot(n, k, d);
      assert out == Stream(n, d);
    } else {
      assert out == [];
      out := out + [Instr(ChLaser, Continue, 0, d), Instr(0, Branch, 0, d)];
      assert out == Stream(n, d);
    }
    r := Success(out);
  }

  /** Reference half: N slots, all with the reference line high, laser on the
      even slots and microwave on the odd ones. Differential half: N slots,
      reference and microwave low, laser on the even global slots only, so the
      alternation carries on across the boundary. */
  lemma Layout(tref: int, pulse: int)
    requires Program(tref, pulse).Success? && SlotCount(tref, pulse) >= 1
    ensures var s, n := Program(tref, pulse).value, SlotCount(tref, pulse);
      && |s| == 2 * n
      && (forall k :: 0 <= k < n ==>
            && Has(s[k], ChRef)
            && (Has(s[k], ChLaser) <==> k % 2 == 0)
            && (Has(s[k], ChMwI) <==> k % 2 == 1))
      && (forall k :: n <= k < 2 * n ==>
            && !Has(s[k], ChRef)
            && !Has(s[k], ChMwI)
            && (Has(s[k], ChLaser) <==> k % 2 == 0))
  {
  }

  /** Every program, whatever N, uses only the named lines and ends in its
      only BRANCH, a zero-channel jump back to address 0. */
  lemma ClosesWithBranch(tref: int, pulse: int)
    requires Program(tref, pulse).Success?
    ensures var s := Program(tref, pulse).value;
      && LoopsToStart(s)
      && s[|s| - 1].mask == 0
      && NamedChannels(s)
  {
  }

  /** Exact division: the reference period is 2·N pulses, and in ns too. */
  lemma PeriodIsSlots(tref: int, pulse: int)
    requires pulse != 0 && Divisible(tref, pulse)
    ensures tref == 2 * SlotCount(tref, pulse) * pulse
    ensures Ns(tref) == 2 * SlotCount(tref, pulse) * Ns(pulse)
  {
    var n := SlotCount(tref, pulse);
    assert tref == (2 * pulse) * n;
    assert tref * 1000 == (2 * n) * (pulse * 1000);
  }

  /** Every slot of every program lasts pulse·1000 ns. */
  lemma SlotsUniform(tref: int, pulse: int)
    requires Program(tref, pulse).Success?
    ensures var s := Program(tref, pulse).value;
      forall k :: 0 <= k < |s| ==> s[k].ns == Ns(pulse)
  {
  }

  /** For N >= 1 the stream spans exactly one reference period, and the
      reference line is high for exactly half of it. */
  lemma {:induction false} Timing(tref: int, pulse: int)
    requires Program(tref, pulse).Success? && SlotCount(tref, pulse) >= 1
    ensures var s, n := Program(tref, pulse).value, SlotCount(tref, pulse);
      && TotalNs(s) == Ns(tref)
      && NsWith(s, ChRef) == n * Ns(pulse)
      && NsWithout(s, ChRef) == n * Ns(pulse)
  {
    var s, n := Program(tref, pulse).value, SlotCount(tref, pulse);
    Layout(tref, pulse);
    SlotsUniform(tref, pulse);
    PeriodIsSlots(tref, pulse);
    Halves(s, n, Ns(pulse), ChRef);
  }

  /** The program spans exactly one reference period if and only if N >= 1;
      for N <= 0 the two emitted slots last 2·pulse instead. */
  lemma {:induction false} PeriodHonoured(tref: int, pulse: int)
    requires Program(tref, pulse).Success?
    ensures TotalNs(Program(tref, pulse).value) == Ns(tref) <==> SlotCount(tref, pulse) >= 1
  {
    var s, n, d := Program(tref, pulse).value, SlotCount(tref, pulse), Ns(pulse);
    if n >= 1 {
      Timing(tref, pulse);
    } else {
      PeriodIsSlots(tref, pulse);
      SlotsUniform(tref, pulse);
      UniformTotal(s, d);
      assert TotalNs(s) == 2 * d;
      assert Ns(tref) == n * (2 * d);
      assert d != 0;
      if n == 0 {
        assert Ns(tref) == 0;
      } else {
        assert n * (2 * d) != 2 * d;
      }
    }
  }

  // ---------------------------------------------------------------------
  // The frequency sweep

  /** The arguments of `run`: the frequency axis (Hz, as `linspace` produced
      it, before reversal), synthesizer power (dBm), the timing handed to
      `pulse_creation` (us) and the number of passes. */
  datatype Settings = Settings(freqs: seq<real>, dbm: real, trefUs: int, pulseUs: int, loops: int)

  /** The axis swept backwards, as `f[::-1]` does. */
  function Reversed(f: seq<real>): seq<real> {
    seq(|f|, k requires 0 <= k < |f| => f[|f| - 1 - k])
  }

  /** Every point recompiles the same program and tunes to its own frequency. */
  function RunConfig(s: Settings, b: Sweep.Bench): Sweep.Config<real> {
    Sweep.Config(Reversed(s.freqs), s.loops, f => Sweep.Point(Program(s.trefUs, s.pulseUs), f),
                 s.dbm, Sweep.SettleTime(b.tauLockin), b.read, b.interrupted)
  }

  /** `run`. */
  function Run(s: Settings, b: Sweep.Bench): Sweep.RunEnd<real> {
    Sweep.Run(RunConfig(s, b))
  }

  /** A finished run records the frequencies from the top of the axis down,
      pass after pass, with the reading taken at each, and tunes the
      synthesizer to exactly the recorded frequencies, in order. */
  lemma RunSweepsDescending(s: Settings, b: Sweep.Bench)
    requires Sweep.Monotone(b.interrupted)
    ensures Run(s, b).Finished? ==>
      var l := Run(s, b).log;
      var n := |s.freqs|;
      && |l.values| <= Max0(s.loops) * n
      && |l.readings| == |l.values|
      && Hardware.Frequencies(l.trace) == l.values
      && forall q :: 0 <= q < |l.values| ==>
           && 0 < n
           && l.values[q] == s.freqs[n - 1 - q % n]
           && l.readings[q] == b.read(q)
  {
    var c := RunConfig(s, b);
    SweepFacts.TotalIsProduct(c);
    SweepFacts.RunRecordsInOrder(c);
    SweepFacts.RunPrograms(c);
    if Run(s, b).Finished? {
      var l := Run(s, b).log;
      var n := |s.freqs|;
      forall q | 0 <= q < |l.values|
        ensures 0 < n && l.values[q] == s.freqs[n - 1 - q % n]
      {
        SweepFacts.ScheduledAt(c, q);
      }
    }
  }

  /** Every program a run loads is the one `pulse_creation` builds from the
      run's timing, which therefore compiled. */
  lemma RunLoadsOneProgram(s: Settings, b: Sweep.Bench)
    requires Sweep.Monotone(b.interrupted)
    ensures var P := Hardware.Programs(SweepFacts.TraceOf(Run(s, b)));
      forall q :: 0 <= q < |P| ==> Program(s.trefUs, s.pulseUs) == Success(P[q])
  {
    SweepFacts.RunPrograms(RunConfig(s, b));
  }

  /** Timing that does not compile stops the run at its first point, before
      anything is loaded, with the compile error, unless the run has no
      point or is interrupted at once; timing that compiles never raises. */
  lemma RunRejectsBadTiming(s: Settings, b: Sweep.Bench)
    requires Sweep.Monotone(b.interrupted)
    ensures Run(s, b).Raised?
        <==> Program(s.trefUs, s.pulseUs).Failure? && s.loops > 0 && |s.freqs| > 0 && !b.interrupted(0)
    ensures Run(s, b).Raised? ==>
      && Run(s, b).error == Program(s.trefUs, s.pulseUs).error
      && Run(s, b).trace == [Hardware.Stop, Hardware.Reset]
  {
    var c := RunConfig(s, b);
    SweepFacts.RunPrograms(c);
    SweepFacts.RunByFirstHalt(c);
    SweepFacts.TotalIsProduct(c);
    if Program(s.trefUs, s.pulseUs).Failure? {
      assert Sweep.Halts(c, 0);
      assert Sweep.FirstHalt(c, 0) == 0;
      assert Sweep.Total(c) > 0 <==> s.loops > 0 && |s.freqs| > 0;
    }
  }
}
