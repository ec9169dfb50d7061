/** Rabi: the block differential pulse program and its microwave-duration sweep.

    The reference phase repeats N times the triple laser / microwave for tau /
    padding with the reference line high; the differential phase repeats N-1
    times laser / idle for tau + padding with the reference and the microwave
    low, then closes with a laser slot and an idle BRANCH back to address 0. */
module RabiExperiment {
  import opened Wrappers
  import opened Instructions
  import Hardware
  import Sweep
  import SweepFacts

  /** Slot `k` of a program with `n >= 1` repetitions; `las`, `tau` and `pad`
      are durations in ns. */
  function Slot(n: int, k: int, las: int, tau: int, pad: int): Instr {
    if k < 3 * n then
      if k % 3 == 0 then Instr(ChRef | ChLaser, Continue, 0, las)
      else if k % 3 == 1 then Instr(ChRef | ChMwI, Continue, 0, tau)
      else Instr(ChRef, Continue, 0, pad)
    else if (k - 3 * n) % 2 == 0 then Instr(ChLaser, Continue, 0, las)
    else if k == 5 * n - 1 then Instr(0, Branch, 0, pad + tau)
    else Instr(0, Continue, 0, tau + pad)
  }

  /** The whole stream. With n <= 0 both loops are empty and only the closing
      laser slot and branch are emitted. */
  function Stream(n: int, las: int, tau: int, pad: int): seq<Instr> {
    if n >= 1 then seq(5 * n, k => Slot(n, k, las, tau, pad))
    else [Instr(ChLaser, Continue, 0, las), Instr(0, Branch, 0, pad + tau)]
  }

  /** The program compiled for laser pulse `las`, microwave duration `tau`
      and padding `pad` (us) repeated `n` times. There is no validation. */
  function Program(las: int, tau: int, pad: int, n: int): seq<Instr> {
    Stream(n, Ns(las), Ns(tau), Ns(pad))
  }

  /** `pulse_creation`: emit N reference triples, N-1 differential pairs and
      the closing pair. */
  method CompileRabi(las: int, tau: int, pad: int, n: int) returns (s: seq<Instr>)
    ensures s == Program(las, tau, pad, n)
  {
    var lasNs, tauNs, padNs := Ns(las), Ns(tau), Ns(pad);
    var out: seq<Instr> := [];
    var i := 0;
    while i < n
      invariant 0 <= i <= Max0(n)
      invariant |out| == 3 * i
      invariant forall k :: 0 <= k < |out| ==> out[k] == Slot(n, k, lasNs, tauNs, padNs)
    {
      out := out + [Instr(ChRef | ChLaser, Continue, 0, lasNs),
                    Instr(ChRef | ChMwI, Continue, 0, tauNs),
                    Instr(ChRef, Continue, 0, padNs)];
      i := i + 1;
    }
    i := 0;
    while i < n - 1
      invariant 0 <= i <= Max0(n - 1)
      invariant |out| == 3 * Max0(n) + 2 * i
      invariant forall k :: 0 <= k < |out| ==> out[k] == Slot(n, k, lasNs, tauNs, padNs)
    {
      out := out + [Instr(ChLaser, Continue, 0, lasNs),
                    Instr(0, Continue, 0, tauNs + padNs)];
      i := i + 1;
    }
    out := out + [Instr(ChLaser, Continue, 0, lasNs), Instr(0, Branch, 0, padNs + tauNs)];
    if n >= 1 {
      assert |out| == 5 * n;
      assert forall k :: 0 <= k < |out| ==> out[k] == Slot(n, k, lasNs, tauNs, padNs);
    }
    s := out;
  }

  /** 3N reference instructions followed by 2N differential ones, or just the
      closing pair when N <= 0. */
  lemma Length(las: int, tau: int, pad: int, n: int)
    ensures |Program(las, tau, pad, n)| == if n >= 1 then 5 * n else 2
  {
  }

  /** The first 3N instructions all hold the reference line high and are the
      laser / microwave / padding triples; the last 2N hold neither the
      reference nor the microwave, with the laser on every other one. */
  lemma Layout(las: int, tau: int, pad: int, n: int)
    requires n >= 1
    ensures var s := Program(las, tau, pad, n);
      && (forall k :: 0 <= k < 3 * n ==>
            && Has(s[k], ChRef)
            && (Has(s[k], ChLaser) <==> k % 3 == 0)
            && (Has(s[k], ChMwI) <==> k % 3 == 1)
            && s[k].ns == [Ns(las), Ns(tau), Ns(pad)][k % 3])
      && (forall k :: 3 * n <= k < 5 * n ==>
            && !Has(s[k], ChRef)
            && !Has(s[k], ChMwI)
            && (Has(s[k], ChLaser) <==> (k - 3 * n) % 2 == 0)
            && s[k].ns == if (k - 3 * n) % 2 == 0 then Ns(las) else Ns(tau) + Ns(pad))
  {
  }

  /** Whatever N, the stream uses only the named lines and its only BRANCH is
      the last, idle instruction, which jumps back to address 0. */
  lemma ClosesWithBranch(las: int, tau: int, pad: int, n: int)
    ensures var s := Program(las, tau, pad, n);
      && LoopsToStart(s)
      && s[|s| - 1].mask == 0
      && NamedChannels(s)
  {
  }

  /** Adding the reference triple that starts at slot m. */
  lemma TripleStep(n: int, las: int, tau: int, pad: int, m: nat)
    requires 1 <= n && m + 3 <= 3 * n && m % 3 == 0
    ensures var s := Stream(n, las, tau, pad);
      && TotalNs(s[..m + 3]) == TotalNs(s[..m]) + (las + tau + pad)
      && NsWith(s[..m + 3], ChRef) == NsWith(s[..m], ChRef) + (las + tau + pad)
      && NsWith(s[..m + 3], ChMwI) == NsWith(s[..m], ChMwI) + tau
  {
    var s := Stream(n, las, tau, pad);
    assert s[m] == Instr(ChRef | ChLaser, Continue, 0, las);
    assert s[m + 1] == Instr(ChRef | ChMwI, Continue, 0, tau);
    assert s[m + 2] == Instr(ChRef, Continue, 0, pad);
    PrefixStep(s, m, ChRef);
    PrefixStep(s, m + 1, ChRef);
    PrefixStep(s, m + 2, ChRef);
    PrefixStep(s, m, ChMwI);
    PrefixStep(s, m + 1, ChMwI);
    PrefixStep(s, m + 2, ChMwI);
  }

  /** Time sums over the first j reference triples. */
  lemma {:induction false} ReferenceSums(n: int, las: int, tau: int, pad: int, j: nat)
    requires 1 <= n && j <= n
    ensures var s := Stream(n, las, tau, pad);
      && TotalNs(s[..3 * j]) == j * (las + tau + pad)
      && NsWith(s[..3 * j], ChRef) == j * (las + tau + pad)
      && NsWith(s[..3 * j], ChMwI) == j * tau
  {
    if j > 0 {
      ReferenceSums(n, las, tau, pad, j - 1);
      TripleStep(n, las, tau, pad, 3 * (j - 1));
      assert j * (las + tau + pad) == (j - 1) * (las + tau + pad) + (las + tau + pad);
      assert j * tau == (j - 1) * tau + tau;
    }
  }

  /** Adding the differential pair that starts at offset m after the
      reference phase. */
  lemma PairStep(n: int, las: int, tau: int, pad: int, m: nat)
    requires 1 <= n && m + 2 <= 2 * n && m % 2 == 0
    ensures var t := Stream(n, las, tau, pad)[3 * n..];
      && TotalNs(t[..m + 2]) == TotalNs(t[..m]) + (las + tau + pad)
      && NsWith(t[..m + 2], ChRef) == NsWith(t[..m], ChRef)
      && NsWith(t[..m + 2], ChMwI) == NsWith(t[..m], ChMwI)
  {
    var t := Stream(n, las, tau, pad)[3 * n..];
    var x, y := Slot(n, 3 * n + m, las, tau, pad), Slot(n, 3 * n + m + 1, las, tau, pad);
    assert t[m] == x && t[m + 1] == y;
    assert x == Instr(ChLaser, Continue, 0, las);
    assert y.mask == 0 && y.ns == tau + pad;
    PrefixStep(t, m, ChRef);
    PrefixStep(t, m + 1, ChRef);
    PrefixStep(t, m, ChMwI);
    PrefixStep(t, m + 1, ChMwI);
  }

  /** Time sums over the first j differential pairs (the last pair being the
      closing one). */
  lemma {:induction false} DifferentialSums(n: int, las: int, tau: int, pad: int, j: nat)
    requires 1 <= n && j <= n
    ensures var t := Stream(n, las, tau, pad)[3 * n..];
      && TotalNs(t[..2 * j]) == j * (las + tau + pad)
      && NsWith(t[..2 * j], ChRef) == 0
      && NsWith(t[..2 * j], ChMwI) == 0
  {
    if j > 0 {
      DifferentialSums(n, las, tau, pad, j - 1);
      PairStep(n, las, tau, pad, 2 * (j - 1));
      assert j * (las + tau + pad) == (j - 1) * (las + tau + pad) + (las + tau + pad);
    } else {
      var t := Stream(n, las, tau, pad)[3 * n..];
      assert t[..0] == [];
    }
  }

  /** Phase balance: for N >= 1 the reference line is high for exactly as
      long as it is low, N·(las + tau + pad) us each. */
  lemma {:induction false} PhaseBalance(las: int, tau: int, pad: int, n: int)
    requires n >= 1
    ensures var s, block := Program(las, tau, pad, n), Ns(las) + Ns(tau) + Ns(pad);
      && NsWith(s, ChRef) == n * block
      && NsWithout(s, ChRef) == n * block
      && TotalNs(s) == 2 * n * block
  {
    var s := Program(las, tau, pad, n);
    ReferenceSums(n, Ns(las), Ns(tau), Ns(pad), n);
    DifferentialSums(n, Ns(las), Ns(tau), Ns(pad), n);
    assert s[3 * n..][..2 * n] == s[3 * n..];
    SplitAt(s, 3 * n, ChRef);
  }

  /** The microwave line is high for N·tau in all (none at all when N <= 0),
      and only while the reference line is high. */
  lemma {:induction false} MicrowaveTime(las: int, tau: int, pad: int, n: int)
    ensures var s := Program(las, tau, pad, n);
      && NsWith(s, ChMwI) == Max0(n) * Ns(tau)
      && forall k :: 0 <= k < |s| && Has(s[k], ChMwI) ==> Has(s[k], ChRef)
  {
    var s := Program(las, tau, pad, n);
    if n >= 1 {
      ReferenceSums(n, Ns(las), Ns(tau), Ns(pad), n);
      DifferentialSums(n, Ns(las), Ns(tau), Ns(pad), n);
      assert s[3 * n..][..2 * n] == s[3 * n..];
      SplitAt(s, 3 * n, ChMwI);
    } else {
      NoneWith(s, ChMwI);
    }
  }

  // ---------------------------------------------------------------------
  // The microwave-duration sweep

  /** The arguments of `run`: microwave frequency (MHz) and power (dBm), the
      repetition count N, the microwave durations swept (us, as `linspace`
      produced them), the padding and laser pulse (us) and the number of
      passes. */
  datatype Settings = Settings(
    mwFreqMHz: real, dbm: real, n: int, taus: seq<int>, padUs: int, laserUs: int, loops: int)

  /** Every point compiles the program for its own duration; the synthesizer
      stays at the one microwave frequency, converted to Hz. */
  function RunConfig(s: Settings, b: Sweep.Bench): Sweep.Config<int> {
    Sweep.Config(s.taus, s.loops,
                 t => Sweep.Point(Success(Program(s.laserUs, t, s.padUs, s.n)), s.mwFreqMHz * 1000000.0),
                 s.dbm, Sweep.SettleTime(b.tauLockin), b.read, b.interrupted)
  }

  /** `run`. */
  function Run(s: Settings, b: Sweep.Bench): Sweep.RunEnd<int> {
    Sweep.Run(RunConfig(s, b))
  }

  /** Compilation has no failure path, so a run always finishes. */
  lemma RunNeverRaises(s: Settings, b: Sweep.Bench)
    requires Sweep.Monotone(b.interrupted)
    ensures Run(s, b).Finished?
  {
    SweepFacts.RunPrograms(RunConfig(s, b));
  }

  /** A run visits the durations in axis order, pass after pass; at each it
      loads the program for that duration, tunes to the fixed microwave
      frequency and records the reading taken there. */
  lemma RunSweepsTaus(s: Settings, b: Sweep.Bench)
    requires Sweep.Monotone(b.interrupted)
    ensures Run(s, b).Finished?
    ensures var l := Run(s, b).log;
      var n := |s.taus|;
      var P, F := Hardware.Programs(l.trace), Hardware.Frequencies(l.trace);
      && |l.values| <= Max0(s.loops) * n
      && |l.readings| == |l.values| && |P| == |l.values| && |F| == |l.values|
      && forall q :: 0 <= q < |l.values| ==>
           && 0 < n
           && l.values[q] == s.taus[q % n]
           && l.readings[q] == b.read(q)
           && P[q] == Program(s.laserUs, s.taus[q % n], s.padUs, s.n)
           && F[q] == s.mwFreqMHz * 1000000.0
  {
    var c := RunConfig(s, b);
    RunNeverRaises(s, b);
    SweepFacts.TotalIsProduct(c);
    SweepFacts.RunRecordsInOrder(c);
    SweepFacts.RunPrograms(c);
    var l := Run(s, b).log;
    var n := |s.taus|;
    forall q | 0 <= q < |l.values|
      ensures 0 < n && l.values[q] == s.taus[q % n]
    {
      SweepFacts.ScheduledAt(c, q);
    }
  }

  /** A run records every duration of every pass exactly when no
      interruption is requested before its last point. */
  lemma RunCompletesUnlessInterrupted(s: Settings, b: Sweep.Bench)
    requires Sweep.Monotone(b.interrupted)
    ensures Run(s, b).Finished?
    ensures |Run(s, b).log.values| == Max0(s.loops) * |s.taus|
        <==> forall q :: 0 <= q < Max0(s.loops) * |s.taus| ==> !b.interrupted(q)
  {
    RunNeverRaises(s, b);
    SweepFacts.TotalIsProduct(RunConfig(s, b));
    SweepFacts.RunCompletes(RunConfig(s, b));
  }
}
