/** What a sweep run guarantees, derived from the flat reference: the order
    of the recorded points, the progress reported, what an interruption does,
    and the order in which the pattern generator is driven. */
module SweepFacts {
  import opened Wrappers
  import opened Instructions
  import opened Hardware
  import opened Sweep

  /** The hardware trace of a run, whichever way it ended. */
  function TraceOf<V>(o: RunEnd<V>): seq<Event> {
    match o
    case Finished(l) => l.trace
    case Raised(_, t) => t
  }

  /** Events that neither load, tune nor report an interruption. */
  predicate Quiet(e: Event) {
    !e.Program? && !e.SetFreq? && !e.UserInterrupt?
  }

  lemma {:induction false} QuietFilters(t: seq<Event>)
    requires forall k :: 0 <= k < |t| ==> Quiet(t[k])
    ensures Programs(t) == [] && Frequencies(t) == [] && Interrupts(t) == 0
    ensures StartFollowsProgram(t)
    decreases |t|
  {
    if t != [] {
      QuietFilters(t[1..]);
    }
  }

  /** A trace of events that each leave the generator in state g. */
  lemma {:induction false} ReplayKeeps(g: Generator, t: seq<Event>)
    requires forall k :: 0 <= k < |t| ==> Step(g, t[k]) == Some(g)
    ensures Replay(g, t) == Some(g)
    decreases |t|
  {
    if t != [] {
      ReplayKeeps(g, t[1..]);
    }
  }

  /** One event in front of a trace. */
  lemma Cons(g: Generator, e: Event, t: seq<Event>)
    ensures Replay(g, [e] + t) == match Step(g, e)
                                 case None => None
                                 case Some(h) => Replay(h, t)
    ensures Programs([e] + t) == (if e.Program? then [e.stream] else []) + Programs(t)
    ensures Frequencies([e] + t) == (if e.SetFreq? then [e.hz] else []) + Frequencies(t)
    ensures Interrupts([e] + t) == (if e.UserInterrupt? then 1 else 0) + Interrupts(t)
    ensures StartFollowsProgram([e] + t)
        == ((e.Program? ==> t != [] && t[0] == Start) && StartFollowsProgram(t))
  {
    assert ([e] + t)[0] == e && ([e] + t)[1..] == t;
  }

  /** The opening stop and reset. */
  lemma OpeningFacts()
    ensures var t: seq<Event> := [Stop, Reset];
      && Replay(Unknown, t) == Some(Stopped) && StartFollowsProgram(t)
      && Programs(t) == [] && Frequencies(t) == [] && Interrupts(t) == 0
  {
    var t: seq<Event> := [Stop, Reset];
    assert t == [Stop] + t[1..];
    Cons(Unknown, Stop, t[1..]);
    ReplayKeeps(Stopped, t[1..]);
    QuietFilters(t);
  }

  lemma LoadFacts(s: seq<Instr>)
    ensures var t := Load(s);
      && Replay(Stopped, t) == Some(Running)
      && StartFollowsProgram(t)
      && Programs(t) == [s] && Frequencies(t) == [] && Interrupts(t) == 0
  {
    var t := Load(s);
    assert t == [Program(s)] + t[1..] && t[1..] == [Start] + [];
    Cons(Stopped, Program(s), t[1..]);
    Cons(Loaded, Start, []);
  }

  lemma AcquireFacts<V>(c: Config<V>, v: V)
    ensures var t := Acquire(c, v);
      && Replay(Running, t) == Some(Running)
      && StartFollowsProgram(t)
      && Programs(t) == [] && Frequencies(t) == [c.point(v).freqHz] && Interrupts(t) == 0
  {
    var t := Acquire(c, v);
    assert t == [t[0]] + t[1..];
    Cons(Running, t[0], t[1..]);
    QuietFilters(t[1..]);
    ReplayKeeps(Running, t[1..]);
  }

  lemma ReleaseFacts(w: real)
    ensures var t := Release(w);
      && Replay(Running, t) == Some(Stopped)
      && StartFollowsProgram(t)
      && Programs(t) == [] && Frequencies(t) == [] && Interrupts(t) == 0
      && !t[|t| - 1].Program?
  {
    var t := Release(w);
    assert t == [Stop] + t[1..];
    Cons(Running, Stop, t[1..]);
    ReplayKeeps(Stopped, t[1..]);
    QuietFilters(t);
  }

  lemma PointReplay<V>(c: Config<V>, v: V, s: seq<Instr>)
    ensures Replay(Stopped, PointEvents(c, v, s)) == Some(Stopped)
    ensures StartFollowsProgram(PointEvents(c, v, s))
    ensures var t := PointEvents(c, v, s); !t[|t| - 1].Program?
  {
    var load, acq, rel := Load(s), Acquire(c, v), Release(c.settle);
    LoadFacts(s);
    AcquireFacts(c, v);
    ReleaseFacts(c.settle);
    ReplayAppend(Stopped, load, acq);
    ReplayAppend(Stopped, load + acq, rel);
    StartFollowsProgramAppend(load, acq);
    StartFollowsProgramAppend(load + acq, rel);
  }

  lemma PointFilters<V>(c: Config<V>, v: V, s: seq<Instr>)
    ensures var t := PointEvents(c, v, s);
      && Programs(t) == [s]
      && Frequencies(t) == [c.point(v).freqHz]
      && Interrupts(t) == 0
  {
    var load, acq, rel := Load(s), Acquire(c, v), Release(c.settle);
    LoadFacts(s);
    AcquireFacts(c, v);
    ReleaseFacts(c.settle);
    FiltersAppend(load, acq);
    FiltersAppend(load + acq, rel);
  }

  /** The reference lists have one entry per point, in visiting order: the
      axis value scheduled for it, its reading and its progress. */
  lemma {:induction false} FlatLists<V>(c: Config<V>, k: nat)
    requires k <= Total(c)
    ensures |Values(c, k)| == k && |Readings(c, k)| == k && |Progress(c, k)| == k
    ensures forall q :: 0 <= q < k ==> Values(c, k)[q] == Scheduled(c, q)
    ensures forall q :: 0 <= q < k ==> Readings(c, k)[q] == c.read(q)
    ensures forall q :: 0 <= q < k ==> Progress(c, k)[q] == Fraction(c, q)
  {
    if k > 0 {
      FlatLists(c, k - 1);
    }
  }

  lemma ExtendFilters(prev: seq<Event>, block: seq<Event>, s: seq<Instr>, f: real)
    requires Programs(block) == [s] && Frequencies(block) == [f] && Interrupts(block) == 0
    ensures Programs(prev + block) == Programs(prev) + [s]
    ensures Frequencies(prev + block) == Frequencies(prev) + [f]
    ensures Interrupts(prev + block) == Interrupts(prev)
  {
    FiltersAppend(prev, block);
  }

  /** The streams of points 0 .. k-1, in visiting order. */
  function Streams<V>(c: Config<V>, k: nat): seq<seq<Instr>>
    requires k <= Total(c)
  {
    if k == 0 then [] else Streams(c, k - 1) + [StreamAt(c, k - 1)]
  }

  /** The carrier frequencies of points 0 .. k-1, in visiting order. */
  function Freqs<V>(c: Config<V>, k: nat): seq<real>
    requires k <= Total(c)
  {
    if k == 0 then [] else Freqs(c, k - 1) + [c.point(Scheduled(c, k - 1)).freqHz]
  }

  lemma {:induction false} StreamsIndex<V>(c: Config<V>, k: nat)
    requires k <= Total(c)
    ensures |Streams(c, k)| == k && |Freqs(c, k)| == k
    ensures forall q :: 0 <= q < k ==> Streams(c, k)[q] == StreamAt(c, q)
    ensures forall q :: 0 <= q < k ==> Freqs(c, k)[q] == c.point(Scheduled(c, q)).freqHz
  {
    if k > 0 {
      StreamsIndex(c, k - 1);
    }
  }

  /** The trace after the first k points loads the streams of those points, in
      order, tunes to their frequencies, in order, and reports no interruption. */
  lemma {:induction false} FlatFilters<V>(c: Config<V>, k: nat)
    requires k <= Total(c)
    ensures var t := Trace(c, k);
      && Programs(t) == Streams(c, k)
      && Frequencies(t) == Freqs(c, k)
      && Interrupts(t) == 0
  {
    if k == 0 {
      OpeningFacts();
    } else {
      FlatFilters(c, k - 1);
      var v, s := Scheduled(c, k - 1), StreamAt(c, k - 1);
      PointFilters(c, v, s);
      ExtendFilters(Trace(c, k - 1), PointEvents(c, v, s), s, c.point(v).freqHz);
    }
  }

  /** A trace that starts by stopping and resetting the generator, is
      accepted by it, leaves it stopped and starts it right after every
      programming. */
  predicate Driven(t: seq<Event>) {
    && |t| >= 2 && t[..2] == [Stop, Reset]
    && Replay(Unknown, t) == Some(Stopped)
    && StartFollowsProgram(t)
  }

  /** Appending a block that takes the stopped generator back to stopped
      keeps a trace driven. */
  lemma DrivenAppend(a: seq<Event>, b: seq<Event>)
    requires Driven(a) && !a[|a| - 1].Program?
    requires Replay(Stopped, b) == Some(Stopped) && StartFollowsProgram(b)
    ensures Driven(a + b)
    ensures b != [] ==> (a + b)[|a + b| - 1] == b[|b| - 1]
  {
    ReplayAppend(Unknown, a, b);
    StartFollowsProgramAppend(a, b);
    assert (a + b)[..2] == a[..2];
  }

  /** The trace after the first k points is driven and does not end in a
      programming. */
  lemma {:induction false} FlatGenerator<V>(c: Config<V>, k: nat)
    requires k <= Total(c)
    ensures Driven(Trace(c, k))
    ensures var t := Trace(c, k); !t[|t| - 1].Program?
  {
    if k == 0 {
      OpeningFacts();
    } else {
      FlatGenerator(c, k - 1);
      var v, s := Scheduled(c, k - 1), StreamAt(c, k - 1);
      PointReplay(c, v, s);
      DrivenAppend(Trace(c, k - 1), PointEvents(c, v, s));
    }
  }

  // ---------------------------------------------------------------------
  // What a whole run does

  /** Interruption lines leave the generator as it is and load, tune and
      count nothing but themselves. */
  lemma {:induction false} NoticesFacts(g: Generator, m: int)
    ensures var t := Notices(m);
      && Replay(g, t) == Some(g) && StartFollowsProgram(t)
      && Programs(t) == [] && Frequencies(t) == [] && Interrupts(t) == Max0(m)
    decreases m
  {
    if m > 0 {
      NoticesFacts(g, m - 1);
      var t := Notices(m);
      assert t[0] == UserInterrupt && t[1..] == Notices(m - 1);
    }
  }

  /** Points a .. q are all passable when q comes before the first halting
      point after a. */
  lemma {:induction false} BeforeFirstHalt<V>(c: Config<V>, a: nat, q: nat)
    requires a <= Total(c) && a <= q < FirstHalt(c, a)
    ensures q < Total(c) && !Halts(c, q)
    decreases q - a
  {
    if a < q {
      BeforeFirstHalt(c, a + 1, q);
    }
  }

  /** A halting point with no halting point before it is the first one. */
  lemma {:induction false} ReachesFirstHalt<V>(c: Config<V>, a: nat, h: nat)
    requires a <= h <= Total(c) && Halts(c, h)
    requires forall q :: a <= q < h ==> !Halts(c, q)
    ensures FirstHalt(c, a) == h
    decreases h - a
  {
    if a < h {
      ReachesFirstHalt(c, a + 1, h);
    }
  }

  /** Point q of a run is axis entry q mod |axis|, in pass q / |axis|, one
      of the passes run. */
  lemma ScheduledAt<V>(c: Config<V>, q: nat)
    requires q < Total(c)
    ensures |c.axis| > 0 && Scheduled(c, q) == c.axis[q % |c.axis|]
    ensures q / |c.axis| < Passes(c) && Remaining(c, q) == Passes(c) - q / |c.axis|
  {
    var n := |c.axis|;
    TimesZero(Passes(c), n);
    CycleMod(c.axis, q);
    PassIndexBelow(q, Passes(c), n);
    PassIndexDiv(q, n);
  }

  lemma TotalIsProduct<V>(c: Config<V>)
    ensures Total(c) == Passes(c) * |c.axis|
  {
    TimesIsProduct(Passes(c), |c.axis|);
  }

  /** The run, by its first halting point h. */
  lemma RunByFirstHalt<V>(c: Config<V>)
    requires Monotone(c.interrupted)
    ensures var h := FirstHalt(c, 0);
      match Run(c)
      case Finished(l) =>
        && (h == Total(c) || c.interrupted(h))
        && l.values == Values(c, h) && l.readings == Readings(c, h) && l.progress == Progress(c, h)
        && l.trace == Trace(c, h) + Notices(if h < Total(c) then Remaining(c, h) else 0)
      case Raised(e, t) =>
        && h < Total(c) && !c.interrupted(h) && c.point(Scheduled(c, h)).program == Failure(e)
        && t == Trace(c, h)
  {
    RunIsFlat(c);
  }

  /** A run stops at its first halting point: the points it programs are
      exactly those before it, none of them interrupted or failing, loaded and
      tuned in visiting order. */
  lemma RunLoads<V>(c: Config<V>)
    requires Monotone(c.interrupted)
    ensures var t := TraceOf(Run(c));
      var k := |Programs(t)|;
      && k == FirstHalt(c, 0)
      && Programs(t) == Streams(c, k)
      && Frequencies(t) == Freqs(c, k)
  {
    var h := FirstHalt(c, 0);
    RunByFirstHalt(c);
    FlatFilters(c, h);
    StreamsIndex(c, h);
    var m := if h < Total(c) then Remaining(c, h) else 0;
    NoticesFacts(Stopped, m);
    FiltersAppend(Trace(c, h), Notices(m));
  }

  /** The q-th program loaded is point q's compiled stream and the q-th
      frequency set is point q's; every point loaded was neither interrupted
      nor failing; a run that raises does so with the error of the first point
      it did not load. */
  lemma RunPrograms<V>(c: Config<V>)
    requires Monotone(c.interrupted)
    ensures var t := TraceOf(Run(c));
      var k := |Programs(t)|;
      && k <= Total(c) && |Frequencies(t)| == k
      && (forall q :: 0 <= q < k ==>
            && !c.interrupted(q)
            && c.point(Scheduled(c, q)).program == Success(Programs(t)[q])
            && Frequencies(t)[q] == c.point(Scheduled(c, q)).freqHz)
      && (Run(c).Raised? ==>
            k < Total(c) && !c.interrupted(k)
            && c.point(Scheduled(c, k)).program == Failure(Run(c).error))
  {
    var t := TraceOf(Run(c));
    var h := FirstHalt(c, 0);
    RunLoads(c);
    RunByFirstHalt(c);
    StreamsIndex(c, h);
    forall q | 0 <= q < h
      ensures !c.interrupted(q) && c.point(Scheduled(c, q)).program == Success(Programs(t)[q])
    {
      BeforeFirstHalt(c, 0, q);
    }
  }

  /** The log of a finished run has one value, reading and progress entry per
      point visited, in visiting order: point q records the axis value
      scheduled for it, the q-th reading and the progress (q + 1) / total. */
  lemma RunRecordsInOrder<V>(c: Config<V>)
    requires Monotone(c.interrupted)
    ensures Run(c).Finished? ==>
      var l := Run(c).log;
      && |l.values| <= Total(c) && |l.readings| == |l.values| && |l.progress| == |l.values|
      && |l.values| == |Programs(l.trace)|
      && forall q :: 0 <= q < |l.values| ==>
           && l.values[q] == Scheduled(c, q)
           && l.readings[q] == c.read(q)
           && l.progress[q] == Fraction(c, q)
  {
    RunByFirstHalt(c);
    RunLoads(c);
    FlatLists(c, FirstHalt(c, 0));
  }

  /** A run records every point of every pass exactly when no point is
      interrupted and every point's program compiles. */
  lemma RunCompletes<V>(c: Config<V>)
    requires Monotone(c.interrupted)
    ensures (Run(c).Finished? && |Run(c).log.values| == Total(c))
        <==> forall q :: 0 <= q < Total(c) ==>
               !c.interrupted(q) && c.point(Scheduled(c, q)).program.Success?
  {
    var h := FirstHalt(c, 0);
    RunByFirstHalt(c);
    FlatLists(c, h);
    if forall q :: 0 <= q < Total(c) ==>
         !c.interrupted(q) && c.point(Scheduled(c, q)).program.Success? {
      ReachesFirstHalt(c, 0, Total(c));
    } else if h == Total(c) {
      forall q | 0 <= q < Total(c)
        ensures !c.interrupted(q) && c.point(Scheduled(c, q)).program.Success?
      {
        BeforeFirstHalt(c, 0, q);
      }
    }
  }

  /** An interruption stops the run at the point where it is noticed: nothing
      is recorded from there on, and each pass from that point's onwards
      reports the interruption once. A run that is not interrupted reports
      nothing. */
  lemma RunCancellation<V>(c: Config<V>)
    requires Monotone(c.interrupted)
    ensures Run(c).Finished? ==>
      var l := Run(c).log;
      var k := |l.values|;
      && (forall q :: 0 <= q < Total(c) && c.interrupted(q) ==> k <= q)
      && (k < Total(c) ==>
            && 0 < |c.axis|
            && c.interrupted(k)
            && k / |c.axis| < Passes(c)
            && Interrupts(l.trace) == Passes(c) - k / |c.axis|)
      && (k == Total(c) ==> Interrupts(l.trace) == 0)
    ensures Run(c).Raised? ==> Interrupts(Run(c).trace) == 0
  {
    var h := FirstHalt(c, 0);
    RunByFirstHalt(c);
    FlatLists(c, h);
    FlatFilters(c, h);
    var m := if h < Total(c) then Remaining(c, h) else 0;
    NoticesFacts(Stopped, m);
    FiltersAppend(Trace(c, h), Notices(m));
    if h < Total(c) {
      ScheduledAt(c, h);
    }
    forall q | 0 <= q < Total(c) && c.interrupted(q)
      ensures h <= q
    {
      if q < h {
        BeforeFirstHalt(c, 0, q);
      }
    }
  }

  lemma FractionRange<V>(c: Config<V>, q: nat)
    requires q < Total(c)
    ensures 0.0 < Fraction(c, q) <= 1.0
    ensures Fraction(c, q) == 1.0 <==> q + 1 == Total(c)
  {
    var t, x := Total(c) as real, (q + 1) as real;
    var f := Fraction(c, q);
    assert 0.0 < x <= t && f == x / t;
    assert f * t == x;
    if f == 1.0 {
      assert x == t;
    }
  }

  lemma FractionIncreases<V>(c: Config<V>, a: nat, b: nat)
    requires a < b < Total(c)
    ensures Fraction(c, a) < Fraction(c, b)
  {
    var t := Total(c) as real;
    assert (a + 1) as real < (b + 1) as real;
  }

  /** The progress a finished run reports lies in (0, 1], strictly increases,
      and ends at 1 exactly when the run recorded every point. */
  lemma RunProgress<V>(c: Config<V>)
    requires Monotone(c.interrupted)
    ensures Run(c).Finished? ==>
      var l := Run(c).log;
      var p := l.progress;
      && (forall q :: 0 <= q < |p| ==> 0.0 < p[q] <= 1.0)
      && (forall a, b :: 0 <= a < b < |p| ==> p[a] < p[b])
      && ((|p| > 0 && p[|p| - 1] == 1.0) <==> 0 < |l.values| == Total(c))
  {
    RunRecordsInOrder(c);
    if Run(c).Finished? {
      var l := Run(c).log;
      var p := l.progress;
      forall q | 0 <= q < |p|
        ensures 0.0 < p[q] <= 1.0
      {
        FractionRange(c, q);
      }
      forall a, b | 0 <= a < b < |p|
        ensures p[a] < p[b]
      {
        FractionIncreases(c, a, b);
      }
      if |p| > 0 {
        FractionRange(c, |p| - 1);
      }
    }
  }

  lemma ClosingGenerator<V>(c: Config<V>, h: nat)
    requires h <= Total(c) && Halts(c, h)
    ensures Driven(TraceOf(Closing(c, h)))
  {
    FlatGenerator(c, h);
    if h < Total(c) && !c.interrupted(h) {
      assert TraceOf(Closing(c, h)) == Trace(c, h);
    } else {
      var m := if h < Total(c) then Remaining(c, h) else 0;
      NoticesFacts(Stopped, m);
      DrivenAppend(Trace(c, h), Notices(m));
      assert TraceOf(Closing(c, h)) == Trace(c, h) + Notices(m);
    }
  }

  /** Whichever way a run ends, its trace starts by stopping and resetting
      the generator, is accepted by it, leaves it stopped, and starts it right
      after every programming. */
  lemma RunGenerator<V>(c: Config<V>)
    requires Monotone(c.interrupted)
    ensures var t := TraceOf(Run(c));
      && |t| >= 2 && t[..2] == [Stop, Reset]
      && Replay(Unknown, t) == Some(Stopped)
      && StartFollowsProgram(t)
  {
    RunIsFlat(c);
    ClosingGenerator(c, FirstHalt(c, 0));
  }
}
