/** The hardware calls a sweep makes, as events of a trace, and the pattern
    generator's life cycle as a state machine over that trace. */
module Hardware {
  import opened Wrappers
  import opened Instructions

  /** Synthesizer channel both experiments drive. */
  const SynthChannel: int := 1

  /** `Program` stands for one `pb_start_programming` ... `pb_stop_programming`
      session loading `stream`; `UserInterrupt` is the "Interrupted by user."
      line sent to the progress channel. */
  datatype Event =
    | Stop
    | Reset
    | Program(stream: seq<Instr>)
    | Start
    | SetFreq(channel: int, hz: real)
    | SetPower(channel: int, dbm: real)
    | RfOn(channel: int)
    | Sleep(seconds: real)
    | Read
    | UserInterrupt

  /** Unknown: before the first stop. Stopped: halted, nothing loaded since.
      Loaded: halted with a freshly loaded program. Running: executing. */
  datatype Generator = Unknown | Stopped | Loaded | Running

  /** One event's effect; None when the generator does not accept it:
      reset, programming and start are only accepted while halted, and
      start only once a program has been loaded. */
  function Step(g: Generator, e: Event): Option<Generator> {
    match e
    case Stop => Some(Stopped)
    case Reset => if g == Stopped || g == Loaded then Some(g) else None
    case Program(_) => if g == Stopped || g == Loaded then Some(Loaded) else None
    case Start => if g == Loaded then Some(Running) else None
    case _ => Some(g)
  }

  /** The state after a whole trace, or None if some event was not accepted. */
  function Replay(g: Generator, t: seq<Event>): Option<Generator>
    decreases t
  {
    if t == [] then Some(g)
    else match Step(g, t[0])
      case None => None
      case Some(h) => Replay(h, t[1..])
  }

  lemma {:induction false} ReplayAppend(g: Generator, a: seq<Event>, b: seq<Event>)
    ensures Replay(g, a + b) == match Replay(g, a)
                                case None => None
                                case Some(h) => Replay(h, b)
    decreases a
  {
    if a == [] {
      assert a + b == b;
    } else {
      assert (a + b)[1..] == a[1..] + b;
      match Step(g, a[0])
      case None =>
      case Some(h) => ReplayAppend(h, a[1..], b);
    }
  }

  /** Every programming session is followed at once by a start. */
  predicate StartFollowsProgram(t: seq<Event>)
    decreases |t|
  {
    t == [] || ((t[0].Program? ==> |t| >= 2 && t[1] == Start) && StartFollowsProgram(t[1..]))
  }

  /** The same, index by index. */
  lemma {:induction false} StartFollowsProgramAt(t: seq<Event>)
    ensures StartFollowsProgram(t)
        <==> forall k :: 0 <= k < |t| && t[k].Program? ==> k + 1 < |t| && t[k + 1] == Start
    decreases |t|
  {
    if t != [] {
      StartFollowsProgramAt(t[1..]);
      if forall k :: 0 <= k < |t| && t[k].Program? ==> k + 1 < |t| && t[k + 1] == Start {
        forall k | 0 <= k < |t[1..]| && t[1..][k].Program?
          ensures k + 1 < |t[1..]| && t[1..][k + 1] == Start
        {
          assert t[k + 1].Program?;
        }
      }
      if StartFollowsProgram(t) {
        forall k | 0 <= k < |t| && t[k].Program?
          ensures k + 1 < |t| && t[k + 1] == Start
        {
          if k > 0 {
            assert t[1..][k - 1].Program?;
          }
        }
      }
    }
  }

  lemma {:induction false} StartFollowsProgramAppend(a: seq<Event>, b: seq<Event>)
    requires StartFollowsProgram(a) && StartFollowsProgram(b)
    requires a == [] || !a[|a| - 1].Program?
    ensures StartFollowsProgram(a + b)
    decreases |a|
  {
    if a == [] {
      assert a + b == b;
    } else {
      assert (a + b)[1..] == a[1..] + b;
      StartFollowsProgramAppend(a[1..], b);
    }
  }

  /** The streams loaded, in order. */
  function Programs(t: seq<Event>): seq<seq<Instr>> {
    if t == [] then []
    else (if t[0].Program? then [t[0].stream] else []) + Programs(t[1..])
  }

  /** The synthesizer frequencies set, in order. */
  function Frequencies(t: seq<Event>): seq<real> {
    if t == [] then []
    else (if t[0].SetFreq? then [t[0].hz] else []) + Frequencies(t[1..])
  }

  /** How many times the interruption line was sent. */
  function Interrupts(t: seq<Event>): nat {
    if t == [] then 0
    else (if t[0] == UserInterrupt then 1 else 0) + Interrupts(t[1..])
  }

  lemma {:induction false} ProgramsAppend(a: seq<Event>, b: seq<Event>)
    ensures Programs(a + b) == Programs(a) + Programs(b)
  {
    if a == [] {
      assert a + b == b;
    } else {
      var h := if a[0].Program? then [a[0].stream] else [];
      assert (a + b)[0] == a[0] && (a + b)[1..] == a[1..] + b;
      ProgramsAppend(a[1..], b);
      assert Programs(a + b) == h + (Programs(a[1..]) + Programs(b));
    }
  }

  lemma {:induction false} FrequenciesAppend(a: seq<Event>, b: seq<Event>)
    ensures Frequencies(a + b) == Frequencies(a) + Frequencies(b)
  {
    if a == [] {
      assert a + b == b;
    } else {
      assert (a + b)[1..] == a[1..] + b;
      FrequenciesAppend(a[1..], b);
    }
  }

  lemma {:induction false} InterruptsAppend(a: seq<Event>, b: seq<Event>)
    ensures Interrupts(a + b) == Interrupts(a) + Interrupts(b)
  {
    if a == [] {
      assert a + b == b;
    } else {
      assert (a + b)[1..] == a[1..] + b;
      InterruptsAppend(a[1..], b);
    }
  }

  /** The three filters distribute over concatenation. */
  lemma FiltersAppend(a: seq<Event>, b: seq<Event>)
    ensures Programs(a + b) == Programs(a) + Programs(b)
    ensures Frequencies(a + b) == Frequencies(a) + Frequencies(b)
    ensures Interrupts(a + b) == Interrupts(a) + Interrupts(b)
  {
    ProgramsAppend(a, b);
    FrequenciesAppend(a, b);
    InterruptsAppend(a, b);
  }
}
