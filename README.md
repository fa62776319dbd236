# wifibench measuring client, modelled in Dafny

`wifibench.py` is a point-to-point TCP throughput benchmark. A server streams
random bytes. A client reads them and prints the throughput every five seconds.
This project models the part of the client that has behaviour worth stating:

- the `Client` object's byte counter `counter` and its run flag `do_run`;
- the receive loop of `Client.start`, which adds each received length to the
  counter while the flag holds;
- the `TypeError` handler of `start` and the `shutdown` signal handler, the two
  places that clear the flag;
- the sampler thread `Client.status` with its polling `wait`. It reads the
  counter and waits five seconds in half-second polls. It leaves without
  printing once the flag is false. Otherwise it prints the rate of the tick;
- the unit arithmetic of `status`. The rate is the counter delta divided by 5.
  The unit is `Mb` from 1048576 upwards and `Kb` from 1024 upwards (a rate at a
  threshold takes the higher unit), else `b`. The figure is divided by the
  unit, and the bit figure is eight times the byte figure.

Files:

- `throughput.dfy`, module `Throughput`: the pure unit arithmetic (`Rate`,
  `UnitOf`, `Format`, `Sample`). It gives an integer reference `UnitOfDelta`,
  because `delta / 5 >= t` holds exactly when `delta >= 5 * t`. It also proves
  that `Format` returns the only normalized figure-and-unit pair for a rate.
- `client_spec.dfy`, module `ClientSpec`: the client as a state machine. The
  state holds `counter`, `do_run`, where each of the two loops is, the counter
  value at the start of the sampler's tick, the printed samples, and the
  history of chunk lengths added. Each atomic step of either loop, and each
  signal, is one `Event`; `Step` gives its effect. `Exec` runs a trace of
  events, which is one interleaving of the two threads.
- `client.dfy`, module `Wifibench`: class `Client` with those fields, updated
  in place. Each method is one step, proved equal to `Step` on the old state.
  `Run` executes a whole interleaving in a loop and is proved equal to `Exec`.

The clock of `wait` is abstract. A `Poll` event is one step of the sampler
thread: at the start of a tick it is the counter read of line 28; inside the
wait, with fewer than `WaitPolls` = 10 sleeps done and the flag true, it is one
half-second sleep; inside the wait with the flag false, it is the `break` of
line 45 followed by the `break` of line 30, which ends the sampler; after 10
sleeps with the flag true, it is the flag test of line 30 together with the
print of line 40. One `wait(5)` is 10 sleeps. `recv` is
abstract too: its result length is the `n` of a `Recv(n)` event, at most the
buffer size `packetSize * 1024` that the call asks for. The outcome of
`connect` is a parameter.

Behaviour of the code that the model keeps:

- The sampler prints only the periodic samples of line 40, and the model's
  `output` holds just those.
- A zero-length read adds 0 and the loop goes on.
- Only `TypeError` is caught in `start`. A refused `connect` or a reset during
  `recv` raises out of `start` and leaves `do_run` true (reader state
  `Raised`), so the sampler keeps printing.

## Model

| member | source | states |
|---|---|---|
| Throughput.Rate | wifibench.py:31 | the rate times the 5-second interval is the counter delta; the rate is non-negative exactly when the delta is |
| Throughput.Format | wifibench.py:32-39 | the result is in normal form for its unit (`b` below 1024, `Kb` in [1, 1024), `Mb` at least 1); figure times divisor is the rate; bit figure is 8 times the byte figure, so it is the bit rate scaled by the same unit |
| Throughput.Sample | wifibench.py:28-39 | the sample of a tick is well formed; figure times divisor times 5 is the counter delta; a non-decreasing counter gives non-negative byte and bit figures |
| Throughput.UnitOf | wifibench.py:32-38 | no contract of its own: the ordered threshold tests; its properties are `UnitOfRate`, `UnitMonotone`, `FormatUnique` and `Boundaries` |
| Throughput.UnitOfRate | wifibench.py:31-38 | choosing the unit on `delta / 5` agrees with the integer reference on the delta (thresholds 5120 and 5242880 bytes per tick) |
| Throughput.FormatUnique | wifibench.py:31-38 | a figure and unit are what the arithmetic returns if and only if the figure is normalized for the unit and scales back to the rate |
| Throughput.UnitMonotone | wifibench.py:33-38 | a larger rate never selects a smaller unit |
| Throughput.Boundaries | wifibench.py:33-38 | 1023 B/s stays `b` with figure 1023; 1024 gives `Kb` with figure 1; 1048575 is still `Kb`; 1048576 gives `Mb` with figure 1; bit figures 8184, 8, 8 |
| Throughput.DeltaBoundaries | wifibench.py:28-38 | deltas of 5119 and 5120 bytes fall on either side of `Kb`, deltas of 5242879 and 5242880 on either side of `Mb` |
| Throughput.LabelsDistinguishUnits | wifibench.py:39-40 | both labels start with the same unit string, and different units give different labels |
| ClientSpec.Init | wifibench.py:6-17 | after construction the counter is 0, the flag is true, nothing is printed and nothing received |
| ClientSpec.Step | wifibench.py:19-46 | no contract of its own: one case per atomic step (connect at 18 with the handler at 22-24, loop turn at 19-21, `shutdown` at 121, sampler at 28-30 and 42-46, print at 31-40); its properties are the `Step*` lemmas |
| ClientSpec.Exec | wifibench.py:14-46 | no contract of its own: runs an interleaving of steps in order; its properties are the `Exec*`, `WaitWhileRunning` and `TickPrintsOnce` lemmas |
| ClientSpec.StepInv | wifibench.py:14-46 | every step keeps the invariant: counter is the sum of the chunks; the tick's start value is not above the counter; printed samples are well formed and non-negative; a loop that left through the flag saw it false |
| ClientSpec.StepCounter | wifibench.py:19-21 | a step raises the counter by exactly the received length when it is a receive inside the loop with the flag true, and by nothing otherwise |
| ClientSpec.StepDoRun | wifibench.py:19-24 | after a step the flag is true if and only if it was true and the step was neither a shutdown signal nor a `TypeError` from `connect` |
| ClientSpec.ShutdownIdempotent | wifibench.py:118-121 | the handler leaves the flag false, and running it twice leaves the same modelled state (flag, counter, loop positions, printed samples) as running it once |
| ClientSpec.StepOutput | wifibench.py:26-40 | a step prints only when the sampler has done its 10 polls and sees the flag true; it prints exactly the rate of the tick |
| ClientSpec.StopObservedAtNextPoll | wifibench.py:42-46 | with the flag false, the sampler is finished within two of its own steps and prints nothing |
| ClientSpec.ExecInv | wifibench.py:14-46 | every trace from a state that satisfies the invariant keeps it |
| ClientSpec.ExecFromInit | wifibench.py:10-40 | from construction, the counter is always the sum of the received chunks and non-negative; every printed sample is well formed and non-negative |
| ClientSpec.ExecGrows | wifibench.py:19-21 | along any trace, from any state, the counter does not decrease; earlier chunks and printed samples are kept, in order |
| ClientSpec.ExecAfterStop | wifibench.py:19-30 | once the flag is false it stays false; counter, chunk history and printed samples no longer change |
| ClientSpec.ExecKeepsRunning | wifibench.py:12-24 | the flag stays true along a trace with no signal and no `TypeError` from `connect` |
| ClientSpec.ExecChunksBounded | wifibench.py:20-21 | no added chunk exceeds the `recv` buffer size |
| ClientSpec.PollsWhileRunning | wifibench.py:42-46 | with the flag true, each poll of `wait` only advances its clock by one sleep |
| ClientSpec.WaitWhileRunning | wifibench.py:42-46 | with the flag true and no signal or `TypeError` in the trace, the polls of `wait` only advance its clock, one sleep each, whatever receives interleave; the flag stays true, nothing is printed and the tick's start value is kept |
| ClientSpec.TickPrintsOnce | wifibench.py:26-46 | from the start of a wait with the flag true, along any trace with no signal, no `TypeError` and exactly 10 polls (receives and other events interleaved anywhere): nothing is printed and the tick's start value is kept; the next poll prints exactly one sample, the rate from that start value to the counter at that moment, and starts the next tick |
| ClientSpec.OneTickScenario | wifibench.py:14-40 | connect, start a tick, receive 5120 bytes, finish the tick: one sample of 1 Kbyte/s and 8 Kbit/s is printed |
| Wifibench.Client.constructor | wifibench.py:6-12 | the object starts in the initial state with the given packet size |
| Wifibench.Client.Connect | wifibench.py:16-24 | performs the `connect` step; a `TypeError` clears the flag and returns from `start` |
| Wifibench.Client.Receive | wifibench.py:19-21 | performs one turn of the receive loop; inside the loop with the flag true it adds exactly `n`; with the flag false the counter is unchanged |
| Wifibench.Client.ReceiveFails | wifibench.py:19-24 | a `recv` that raises leaves `start` without touching the counter or the flag |
| Wifibench.Client.Shutdown | wifibench.py:118-121 | clears the flag; the counter is unchanged and no sample is printed |
| Wifibench.Client.StatusStep | wifibench.py:26-46 | performs one sampler step; it prints only if the flag held, and then exactly the tick's sample; with the flag false it prints nothing |
| Wifibench.Client.Run | wifibench.py:14-46 | running an interleaving step by step ends in the state `Exec` gives for that trace, with the invariant kept |

## Left out

- Sockets (`connect`, `recv`, `send`, `bind`, `listen`, `accept`, socket options and closing): network I/O. `connect` is an outcome parameter and `recv` is a length.
- The `Server` class as a whole: its loops are socket plumbing, and its `stop` calls `sys.exit`.
- Threads and cross-thread memory visibility: the two loops are modelled as interleaved atomic steps. A signal that arrives while `recv` blocks matches the interleaving where the receive step comes first: in real time one in-flight chunk may be added after the flag clears, and the model puts that receive before the signal. In the same way, the sampler's flag test (line 30) and its print (line 40) are one step: a signal between them matches the interleaving where the signal comes after that step.
- Signal registration, the global `mode`, `argparse`, `main` and `wbhelp`: process and command-line glue.
- Wall-clock time: `wait` counts half-second polls and assumes each `time.sleep(0.5)` takes exactly half a second. A slow scheduler could end a real wait in fewer polls.
- Throughput.Format: computes on exact reals, not Python floats. It states its properties on the figure before `round(..., 2)`, so the printed bit figure (8 times the rounded figure) is not modelled. Because of the rounding, a printed `Kb` figure can leave [1, 1024): a rate of 1048575 B/s has a figure just below 1024, which prints as `1024.0`. A `b` figure is printed unrounded. The float repr and f-string text are not modelled beyond the unit labels.
- Prints other than the samples: `output` holds only the samples of line 40. `print('Client mode started')` (line 15) and the `print('Shutdown')` that every call of the handler makes (line 120) are not modelled.
- `os.urandom` payload generation: a foreign call of the server.
