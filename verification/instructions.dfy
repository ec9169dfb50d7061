/** The PulseBlaster instruction stream that both pulse-program compilers emit,
    the failure values a compilation can end in, and the duration bookkeeping
    (total time, time with a channel bit high) used to state timing properties. */
module Instructions {
  import opened Wrappers

  /** Why a pulse program could not be compiled.
      ZeroPulse: the pulse width is zero, so the division that counts the
      slots raises before anything else is checked.
      NotDivisible: half the reference period is not a whole number of pulses. */
  datatype CompileError = ZeroPulse | NotDivisible

  /** The two opcodes the compilers use: run on to the next address, or jump. */
  datatype Opcode = Continue | Branch

  /** TTL output lines as a bit field. */
  type Mask = bv32

  /** TTL to the lock-in reference input. */
  const ChRef: Mask := 1
  /** TTL to the laser. */
  const ChLaser: Mask := 2
  /** TTL to the microwave I channel. */
  const ChMwI: Mask := 4

  /** One `pb_inst_pbonly(mask, op, target, duration)` call; the duration is in ns. */
  datatype Instr = Instr(mask: Mask, op: Opcode, target: nat, ns: int)

  /** Timing parameters are whole microseconds; the generator is given nanoseconds. */
  const NsPerUs: int := 1000

  function Ns(us: int): int {
    us * NsPerUs
  }

  function Max0(n: int): nat {
    if n > 0 then n else 0
  }

  predicate Has(i: Instr, ch: Mask) {
    i.mask & ch != 0
  }

  /** Every mask is a union of the three named channel bits. */
  predicate NamedChannels(s: seq<Instr>) {
    forall k :: 0 <= k < |s| ==> s[k].mask & !(ChRef | ChLaser | ChMwI) == 0
  }

  /** The stream closes with its only BRANCH, which jumps back to address 0:
      the hardware repeats the whole program until it is stopped. */
  predicate LoopsToStart(s: seq<Instr>) {
    && |s| >= 1
    && s[|s| - 1].op == Branch
    && s[|s| - 1].target == 0
    && forall k :: 0 <= k < |s| - 1 ==> s[k].op == Continue
  }

  /** Sum of all durations. */
  function TotalNs(s: seq<Instr>): int {
    if s == [] then 0 else s[0].ns + TotalNs(s[1..])
  }

  /** Sum of the durations of the instructions that hold channel `ch` high. */
  function NsWith(s: seq<Instr>, ch: Mask): int {
    if s == [] then 0 else (if Has(s[0], ch) then s[0].ns else 0) + NsWith(s[1..], ch)
  }

  /** Sum of the durations of the instructions that hold channel `ch` low. */
  function NsWithout(s: seq<Instr>, ch: Mask): int {
    TotalNs(s) - NsWith(s, ch)
  }

  lemma {:induction false} SumsAppend(a: seq<Instr>, b: seq<Instr>, ch: Mask)
    ensures TotalNs(a + b) == TotalNs(a) + TotalNs(b)
    ensures NsWith(a + b, ch) == NsWith(a, ch) + NsWith(b, ch)
  {
    if a == [] {
      assert a + b == b;
    } else {
      assert (a + b)[1..] == a[1..] + b;
      SumsAppend(a[1..], b, ch);
    }
  }

  /** A stream whose instructions all last `d` ns lasts |s|·d ns. */
  lemma {:induction false} UniformTotal(s: seq<Instr>, d: int)
    requires forall k :: 0 <= k < |s| ==> s[k].ns == d
    ensures TotalNs(s) == |s| * d
  {
    if s != [] {
      UniformTotal(s[1..], d);
    }
  }

  /** If every instruction holds `ch` high, all of the time is time with `ch`. */
  lemma {:induction false} AllWith(s: seq<Instr>, ch: Mask)
    requires forall k :: 0 <= k < |s| ==> Has(s[k], ch)
    ensures NsWith(s, ch) == TotalNs(s)
  {
    if s != [] {
      AllWith(s[1..], ch);
    }
  }

  /** If no instruction holds `ch` high, none of the time is time with `ch`. */
  lemma {:induction false} NoneWith(s: seq<Instr>, ch: Mask)
    requires forall k :: 0 <= k < |s| ==> !Has(s[k], ch)
    ensures NsWith(s, ch) == 0
  {
    if s != [] {
      NoneWith(s[1..], ch);
    }
  }

  lemma SplitAt(s: seq<Instr>, i: nat, ch: Mask)
    requires i <= |s|
    ensures TotalNs(s) == TotalNs(s[..i]) + TotalNs(s[i..])
    ensures NsWith(s, ch) == NsWith(s[..i], ch) + NsWith(s[i..], ch)
  {
    assert s == s[..i] + s[i..];
    SumsAppend(s[..i], s[i..], ch);
  }

  /** Extending a prefix by one instruction adds that instruction's time. */
  lemma PrefixStep(s: seq<Instr>, m: nat, ch: Mask)
    requires m < |s|
    ensures TotalNs(s[..m + 1]) == TotalNs(s[..m]) + s[m].ns
    ensures NsWith(s[..m + 1], ch) == NsWith(s[..m], ch) + (if Has(s[m], ch) then s[m].ns else 0)
  {
    assert s[..m + 1] == s[..m] + [s[m]];
    SumsAppend(s[..m], [s[m]], ch);
  }

  /** A stream of 2n slots of d ns each, `ch` high in the first n only: `ch`
      is high for n·d ns and low for n·d ns. */
  lemma Halves(s: seq<Instr>, n: nat, d: int, ch: Mask)
    requires |s| == 2 * n
    requires forall k :: 0 <= k < |s| ==> s[k].ns == d
    requires forall k :: 0 <= k < n ==> Has(s[k], ch)
    requires forall k :: n <= k < |s| ==> !Has(s[k], ch)
    ensures TotalNs(s) == 2 * n * d
    ensures NsWith(s, ch) == n * d && NsWithout(s, ch) == n * d
  {
    SplitAt(s, n, ch);
    UniformTotal(s, d);
    UniformTotal(s[..n], d);
    AllWith(s[..n], ch);
    NoneWith(s[n..], ch);
  }
}
