# Pulsed ODMR and Rabi experiments: a verified model

The repository drives a lock-in NV-centre setup. There are three instruments:
- a PulseBlaster pattern generator;
- an SR830 lock-in amplifier;
- a Windfreak microwave synthesizer.

Each experiment module has two parts:

- **a pulse-program compiler** (`pulse_creation`). It turns a few timing parameters into a stream of PulseBlaster instructions `(channel mask, CONTINUE | BRANCH, target, duration in ns)`. The channel bits are `CH_REF = 1`, `CH_LASER = 2` and `CH_MW_I = 4`. The stream has two halves:
  - a reference half, in which the lock-in reference line is high;
  - a differential half of equal length, in which it is low and the microwave is left out.

  The stream then branches back to address 0.
- **a sweep loop** (`run`). It makes `loops` passes over a sweep axis. At each point it:
  - checks for a user interruption;
  - recompiles and loads the program, and starts the generator;
  - tunes the synthesizer and waits for the lock-in to settle;
  - reads the lock-in and records the point;
  - stops and resets the generator, and settles again.

The model is written in Dafny. Its files:
- `wrappers.dfy` (module `Wrappers`): the general `Result` and `Option` wrappers.
- `instructions.dfy` (module `Instructions`): the instruction record, the channel masks, durations (µs to ns), and the duration sums per channel.
- `pulsed_odmr.dfy` (module `PulsedOdmr`): the duty-cycle differential compiler of `experiments/pulsed_odmr.py` and its frequency sweep.
- `rabi_experiment.dfy` (module `RabiExperiment`): the block differential compiler of `experiments/rabi_experiment.py` and its microwave-duration sweep.
- `hardware.dfy` (module `Hardware`):
  - the instrument calls, as events of a trace;
  - the generator's life cycle, as a state machine that replays a trace (Unknown, Stopped, Loaded, Running);
  - filters that pick the loaded programs, the tuned frequencies and the interruption lines out of a trace.
- `sweep.dfy` (module `Sweep`): the sweep loop shared by both experiments, in two forms:
  - `Run` follows the nested `while` / `for` loops, including a `break` that leaves only the inner loop.
  - `Expected` is a flat reference. Point q = pass·|axis| + i is visited exactly when no earlier point halts. A point halts when it is interrupted or its program fails to compile.

  `RunIsFlat` proves the two equal.
- `sweep_facts.dfy` (module `SweepFacts`): what a whole run guarantees, derived from the flat reference. It covers:
  - the order of the records;
  - the progress fractions;
  - cancellation;
  - the programs loaded;
  - the order in which the generator is driven.

Modelling choices:
- Durations are integers in µs. The emitted ns value is µs·1000.
- The pulsed ODMR divisibility test `(tref/2) % pulse != 0` is taken on exact values. For integers it is the same as `tref % (2·pulse) != 0`.
- A zero pulse width fails before the `%` test, at the division on line 25. It gets its own error, `ZeroPulse`.
- A point's position q = pass·n + i is built by repeated addition (`Sweep.Times`), and the flat reference walks the axis cyclically (`Sweep.Cycle`). `SweepFacts.ScheduledAt` and `SweepFacts.TotalIsProduct` relate these to `mod`, `div` and `*`, which the stated results use.
- A sweep point's reading and the interruption flag are parameters of the run (`Sweep.Bench`), indexed by the point's position q:
  - the lock-in reading is an oracle `read(q)`;
  - the thread's interruption request is a predicate `interrupted(q)`.

  The run lemmas assume the request is sticky: once raised, it stays raised. Qt's interruption request behaves this way.
- A compile error raised inside `run` ends the run with the error. The trace up to that point is kept and the partial lists are lost, since `run` never returns them.

Behaviour of the code worth knowing:
- **N < 1 is not rejected.** If `tref/2` is a non-positive multiple of the pulse, the ODMR compiler still emits two instructions: a laser slot and a branch. The Rabi compiler does the same for `N <= 0`, and it never validates anything, negative padding included. `PulsedOdmr.PeriodHonoured` shows that the ODMR stream then does not span the reference period.
- **ODMR closing.** For every N ≥ 1 the parity flag leaves the second loop at -1. So the code closes with a single zero-channel BRANCH, and the stream has exactly 2N instructions. The laser slot plus branch closing is reached only when N ≤ 0. The branch never carries the laser bit.
- **Rabi duration.** Each half of the Rabi stream lasts N·(las + τ + pad), so the whole stream lasts 2N·(las + τ + pad).
- **Rabi period.** `run` computes a reference period `tref_us` and never uses it. The padding stays at `min_padding_us` at every point.

## Model

| member | source | states |
|---|---|---|
| `PulsedOdmr.CompileOdmr` | experiments/pulsed_odmr.py:18-48 | The compile fails exactly when the pulse is 0 or half the reference period is not a whole number of pulses. On success its two loops, which thread the parity flag, emit exactly the slot-by-slot stream `Program` describes. On failure nothing is emitted. |
| `PulsedOdmr.FlipsParity` | experiments/pulsed_odmr.py:31-42 | After k sign flips `a = a*-1`, the flag is `a` when k is even and `-a` when k is odd. |
| `PulsedOdmr.ClosingFlag` | experiments/pulsed_odmr.py:43-47 | The flag reaching the closing `if` (N flips, then N-1 more) is -1, which selects the lone BRANCH, if and only if N ≥ 1. |
| `PulsedOdmr.Layout` | experiments/pulsed_odmr.py:31-42 | For N ≥ 1 the stream has 2N slots. The first N carry the reference line; laser is on at even indices and microwave at odd ones. The last N carry neither reference nor microwave, and laser is on exactly at even global indices, so the parity continues across the boundary. |
| `PulsedOdmr.ClosesWithBranch` | experiments/pulsed_odmr.py:36-47 | Whatever N, only the last instruction is a BRANCH. It has target 0 and channel mask 0, and the stream uses only the three named lines. |
| `PulsedOdmr.PeriodIsSlots` | experiments/pulsed_odmr.py:24-28 | When the divisibility check passes, the reference period is exactly 2·N pulses, in µs and in ns. |
| `PulsedOdmr.SlotsUniform` | experiments/pulsed_odmr.py:20-47 | Every emitted instruction lasts pulse·1000 ns. |
| `PulsedOdmr.Timing` | experiments/pulsed_odmr.py:20-47 | For N ≥ 1 the stream lasts exactly tref·1000 ns. The reference line is high for N·pulse·1000 ns and low for the same time. |
| `PulsedOdmr.PeriodHonoured` | experiments/pulsed_odmr.py:24-47 | A compiled stream spans the reference period if and only if N ≥ 1. |
| `PulsedOdmr.RunSweepsDescending` | experiments/pulsed_odmr.py:58-92 | A finished run records frequencies from the top of the axis down, pass after pass: point q records `f[n-1-q mod n]`. Readings keep step with the frequencies, and the synthesizer is tuned to exactly the recorded frequencies, in order. |
| `PulsedOdmr.RunLoadsOneProgram` | experiments/pulsed_odmr.py:79-80 | Every program a run loads is the same stream, compiled from the run's own timing and independent of the frequency. |
| `PulsedOdmr.RunRejectsBadTiming` | experiments/pulsed_odmr.py:73-79 | A run raises if and only if the timing does not compile, the run has a point, and it is not interrupted at once. It then raises that compile error, having only stopped and reset the generator. |
| `RabiExperiment.CompileRabi` | experiments/rabi_experiment.py:17-37 | The three loops and the closing pair emit exactly the slot-by-slot stream `Program` describes, for every N. |
| `RabiExperiment.Length` | experiments/rabi_experiment.py:23-37 | The stream has 5N instructions for N ≥ 1 and 2 otherwise. |
| `RabiExperiment.Layout` | experiments/rabi_experiment.py:24-34 | The first 3N instructions are reference triples (laser, microwave for τ, padding) with the reference line high. The last 2N have neither reference nor microwave, alternate laser / idle for τ+pad, and each has its stated duration. |
| `RabiExperiment.ClosesWithBranch` | experiments/rabi_experiment.py:35-36 | Whatever N, only the last instruction is a BRANCH. It is idle, has target 0, and the stream uses only the named lines. |
| `RabiExperiment.PhaseBalance` | experiments/rabi_experiment.py:19-36 | For N ≥ 1 the reference line is high for N·(las+τ+pad)·1000 ns and low for the same time, so the stream lasts twice that. |
| `RabiExperiment.MicrowaveTime` | experiments/rabi_experiment.py:24-29 | The microwave line is high for max(N,0)·τ·1000 ns in all, and only while the reference line is high. |
| `RabiExperiment.RunNeverRaises` | experiments/rabi_experiment.py:71-74 | The compiler has no failure path, so a run always finishes. |
| `RabiExperiment.RunSweepsTaus` | experiments/rabi_experiment.py:65-89 | Point q uses `taus[q mod n]`, in ascending axis order, pass after pass. It loads the program for that τ with the fixed padding, tunes to the fixed `mw_freq_MHz·1e6`, and records the q-th reading. Programs, frequencies, values and readings all have equal length. |
| `RabiExperiment.RunCompletesUnlessInterrupted` | experiments/rabi_experiment.py:65-95 | A run records all loops·n points if and only if no interruption is requested before the end. |
| `Sweep.SettleTime` | experiments/pulsed_odmr.py:56 | The settle time is at least 1 s and at least fifteen lock-in time constants, and equals one of the two. |
| `Sweep.PassAgrees` | experiments/pulsed_odmr.py:75-96 | One pass of the inner `for` from index i ends in one of three ways: at the end of the pass; at the first interrupted point with one interruption line; or by raising at the first failing point. The points before the stop are logged as in the flat reference. |
| `Sweep.AllInterrupted` | experiments/pulsed_odmr.py:73-78 | Once the interruption is requested, every remaining pass breaks at its first point and adds exactly one interruption line. |
| `Sweep.PassesAgree` | experiments/pulsed_odmr.py:73-98 | The outer `while` from any pass boundary agrees with the flat reference closed at the first halting point. |
| `Sweep.RunIsFlat` | experiments/pulsed_odmr.py:66-98 | The nested loops with their `break` equal the flat reference: points before the first halting point in order, then a raise or the interruption lines. |
| `SweepFacts.ScheduledAt` | experiments/pulsed_odmr.py:73-92 | Point q, the index `loop_count*len(f)+i` of the progress report, is axis entry q mod n and belongs to pass q / n, which is one of the `loops` passes run. |
| `SweepFacts.RunRecordsInOrder` | experiments/pulsed_odmr.py:75-92 | A finished run's values, readings and progress grow in lock step, with at most loops·n entries. Point q holds the q-th scheduled axis value, the q-th reading and the progress (q+1)/(loops·n). One program was loaded per recorded point. |
| `SweepFacts.RunPrograms` | experiments/pulsed_odmr.py:76-81 | The q-th program loaded is point q's compiled stream and the q-th frequency set is point q's. No loaded point was interrupted or failed to compile. A raising run raises the error of the first point it did not load. |
| `SweepFacts.RunCompletes` | experiments/pulsed_odmr.py:73-98 | A run finishes with every point of every pass recorded if and only if no point is interrupted and every point's program compiles. |
| `SweepFacts.RunCancellation` | experiments/pulsed_odmr.py:73-78 | Nothing is recorded at or after an interrupted point. A run that stops early stops at an interrupted point, and reports it once for its own pass and once for each later pass. A complete or raising run reports no interruption. |
| `SweepFacts.RunProgress` | experiments/pulsed_odmr.py:92 | The progress values lie in (0, 1] and strictly increase. The last one is 1 exactly when every point was recorded. |
| `SweepFacts.RunGenerator` | experiments/pulsed_odmr.py:67-96 | Whichever way a run ends, its trace starts with stop and reset. The generator accepts every event, so programming and reset happen only while it is halted and start only after a load. The run leaves the generator stopped, and every programming is followed at once by a start. |

The sweep members of `Sweep` and `SweepFacts` are generic over the axis. The Rabi loop (experiments/rabi_experiment.py:58-95) has the same shape as the ODMR loop cited above, so they hold for it too; its rows instantiate them.

## Left out

- The GUI, the `QThread` worker, signal plumbing, plotting and CSV export in main_gui.py. These are user interface, concurrency and file I/O.
- The Windfreak driver. Its calls appear only as the trace events `SetFreq`, `SetPower` and `RfOn`.
- The SR830 and spinapi calls. Readings come from the oracle `read(q)`. Sleeps, stop, reset, start and programming are trace events. Instrument initialisation (`pb_init_simple`, `init_sr830`, `WindfreakSynth()`) is not modelled.
- Instrument failures. The model assumes every call to the pulse generator, the synthesizer and the lock-in (`pb_start`, `pb_stop`, `pb_reset`, `mw.set_freq`, `mw.set_power`, `mw.rf_on`, `sr830_read_R`) succeeds: `read` is a total oracle and only a compile error ends a run early (`Sweep.RunEnd` has no hardware-failure case). In the code such an exception would also leave `run` through its `finally`; the hardware is not modelled, so its failures are not either.
- The `finally` teardown with its bare `except: pass`. It releases real devices and swallows their failures, so the model's trace ends where the sweep ends.
- experiments/ramsey_experiment.py. Its compiler is a stub and its run is truncated.
- Floating point. `np.linspace` is replaced by a given axis. Durations are exact integers in µs, so the Rabi default axis that starts at 0.05 µs is outside the model. The settle time and the frequencies are `real`.
- The exact text of log and status lines. Only the "Interrupted by user." line is modelled, as the `UserInterrupt` event.
- `Sweep.RunIsFlat` and every run lemma require the interruption request to be sticky (`Sweep.Monotone`). A flag that could be withdrawn is not covered.
- `PulsedOdmr.RunSweepsDescending` states the order of the frequencies the run records. It does not state that the axis is evenly spaced, since `np.linspace` is not modelled.
