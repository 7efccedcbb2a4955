# RotaryEncoder in Dafny

A verified model of the RotaryEncoder Arduino library: a polled decoder for a two-channel
quadrature rotary encoder. Each `update()` call shifts the current 2-bit channel sample into
an 8-bit history register, classifies the previous-to-current transition through a fixed
16-entry table (Up, Down or no motion), runs a time-based debounce (rate limiting) gate on
wrap-around 32-bit millisecond time, and on an accepted step moves a virtual position by one,
saturating at a lower and an upper bound. Setters adjust the bounds (clamping the position),
the position (range-checked), the debounce duration and the idle pattern; `reset` and
`retime` re-initialise the decoder and its debounce clock.

Files:

- `constants.dfy` (module `EncoderConstants`): the widths of the header's field types
  (`byte`, `unsigned long`) as bounded integer types, and its named constants.
- `quadrature.dfy` (module `Quadrature`): the direction table, the history shift, the
  wrap-around elapsed time, and one `update()` call as a pure function `Step` on a
  `Snapshot` of the fields, with lemmas about each.
- `rotary_encoder.dfy` (module `RotaryEncoders`): the `RotaryEncoder` class. Its fields are
  the library's; each method changes only the fields the library's method assigns, and
  `Update` is proved to produce exactly the state and result `Step` describes.
- `scenarios.dfy` (module `EncoderScenarios`): `Run`, a sequence of `update()` calls, with
  the bounds invariant over any run, full forward and reverse quadrature cycles, the debounce
  gate over several polls, and the uninitialised-bounds finding below.

Outside inputs are parameters. The two `digitalRead` levels of one `update()` call arrive as
one 2-bit `sample` (channel A in bit 1, channel B in bit 0). `update()` reads `millis()`
at most twice: for the debounce gate only while a debounce is running (the `&&` at
src/RotaryEncoder.cpp:52 short-circuits), and for the timestamp only on an accepted step.
`Update` therefore takes two readings, `gateNow` and `stampNow`; a reading the call would not
have made has no effect on the result. `retime` takes its one reading as
`now`.

Behaviour the model follows from the code, where descriptions of the library say otherwise:

- Transition signs come from the table: 00 -> 10 is Up (+1) and 00 -> 01 is Down (-1).
  The forward cycle is 00, 10, 11, 01.
- `update()` overwrites the recorded direction on every call, including calls that return
  false. `direction()`, `increased()` and `decreased()` report the latest raw
  classification, not the latest accepted step (`Quadrature.DirectionReportsRejectedChange`).
- The constructor does not set the bounds to 0..255. It never assigns them, so the model
  leaves them as constructor parameters (see Findings).

## Model

| member | source | states |
|---|---|---|
| `Quadrature.Dir` | src/RotaryEncoder.cpp:46 | every table entry is a direction value: -1, 0 or +1 |
| `Quadrature.DirIsCycleDecoding` | src/RotaryEncoder.cpp:46 | the table equals reference quadrature decoding along the Gray cycle 00, 10, 11, 01: one step forward is Up, one step back is Down, no step or a skipped state is 0 |
| `Quadrature.DirNonzeroIffOneChannelChanges` | src/RotaryEncoder.cpp:46 | a transition has a direction exactly when one of the two channel bits changes; no change, or both bits changing, gives 0 |
| `Quadrature.DirReversal` | src/RotaryEncoder.cpp:46 | reversing a transition negates its direction |
| `Quadrature.ShiftInKeepsLastSamples` | src/RotaryEncoder.cpp:47-48 | after the 8-bit shift-and-OR, the low two bits are the new sample, the upper six bits are the three previous samples (bits 3-2 the one before) and the oldest sample is lost |
| `Quadrature.ClassifyReadsLastTwoSamples` | src/RotaryEncoder.cpp:49 | the table lookup on `encoderState & 0x0F` is the direction from the previous sample (bits 3-2) to the current one (bits 1-0) |
| `Quadrature.ShiftIn` | src/RotaryEncoder.cpp:47-48 | the shifted 8-bit history ends in the new sample (its value modulo 4 is the sample) |
| `Quadrature.Classify` | src/RotaryEncoder.cpp:49 | the direction read from the history is always -1, 0 or +1 |
| `Quadrature.GateDebouncing` | src/RotaryEncoder.cpp:52-54 | the first `if` can only end a debounce, never start one, and leaves one running exactly when the gate (`Quadrature.GateOpen`: no debounce, or at least the duration elapsed) is closed |
| `Quadrature.StepPosition` | src/RotaryEncoder.cpp:59-64 | an accepted step moves the position by at most one, and a position within the bounds stays within them |
| `Quadrature.Step` | src/RotaryEncoder.cpp:43-71 | one `update()` call: the recorded direction is the classification of the new history; a call that returns true leaves a debounce running; a debounce runs afterwards only if it ran before or the call returned true |
| `Quadrature.Elapsed` | src/RotaryEncoder.cpp:52 | the `unsigned long` difference is the time from the stamp to now modulo 2^32; it is the plain difference without a wrap and adds 2^32 across one |
| `Quadrature.ElapsedAfterDelay` | src/RotaryEncoder.cpp:52 | a clock reading d ms after t, reduced modulo 2^32, measures exactly d from t, also across a wrap of the clock |
| `Quadrature.Constructed` | src/RotaryEncoder.cpp:12-16 | after construction the history equals the idle-high pattern 0x03, the debounce is 85 ms and not running, the direction is 0 and the position equals the lower bound; the position is within the bounds exactly when the unassigned bounds happen to be ordered |
| `Quadrature.StepRecordsSample` | src/RotaryEncoder.cpp:47-49 | after `update`, the low two history bits are the sample and the older samples shift up; the recorded direction is `Dir(previous low two bits, sample)`, whatever the call returns |
| `Quadrature.StepAcceptsIff` | src/RotaryEncoder.cpp:52-70 | `update` returns true iff the transition has a direction and the gate is open (no debounce running, or at least the duration elapsed); afterwards a debounce runs iff the call returned true or the old one has not run out |
| `Quadrature.StepAccepted` | src/RotaryEncoder.cpp:57-66 | an accepted step starts a debounce stamped with the second clock reading; it moves +1 iff Up and below the maximum, -1 iff Down and above the minimum, else not at all, so a step at a bound is still accepted |
| `Quadrature.StepRejected` | src/RotaryEncoder.cpp:68-70 | a call returning false leaves position and timestamp unchanged |
| `Quadrature.StepKeepsConfiguration` | src/RotaryEncoder.cpp:43-71 | `update` never changes the bounds, the debounce duration or the idle pattern |
| `Quadrature.StepPreservesBounds` | src/RotaryEncoder.cpp:59-64 | `update` keeps `minPosition <= position <= maxPosition` (saturation, no wrap) |
| `Quadrature.ZeroDebounceAcceptsEveryChange` | src/RotaryEncoder.cpp:52-57 | with debounce duration 0 every transition with a direction is accepted |
| `Quadrature.GateReleasesAfterDuration` | src/RotaryEncoder.cpp:52-57 | once the duration has elapsed since the stamp, a transition with a direction is accepted |
| `Quadrature.DirectionReportsRejectedChange` | src/RotaryEncoder.cpp:49-69 | a transition seen while debouncing returns false and leaves the position, yet the recorded direction reports it |
| `EncoderScenarios.Run` | src/RotaryEncoder.cpp:43-71 | a sequence of `update` calls yields one return value per call |
| `EncoderScenarios.RunKeepsConfiguration` | src/RotaryEncoder.cpp:43-71 | no sequence of `update` calls changes bounds, debounce duration or idle pattern |
| `EncoderScenarios.RunPreservesBounds` | src/RotaryEncoder.cpp:57-66 | bounds invariant: a position within the bounds stays within them over any sequence of `update` calls |
| `EncoderScenarios.RunMovesAtMostOncePerAcceptedStep` | src/RotaryEncoder.cpp:57-69 | over any run the position moves by at most the number of calls that returned true |
| `EncoderScenarios.AcceptedMove` | src/RotaryEncoder.cpp:57-66 | with the gate open and room to move, a transition with a direction is accepted and moves the position by that direction |
| `EncoderScenarios.ForwardCycleCountsFourUp` | src/RotaryEncoder.cpp:46-66 | from prior sample 00 with debounce 0, samples 10, 11, 01, 00 give four accepted +1 steps |
| `EncoderScenarios.ReverseCycleCountsFourDown` | src/RotaryEncoder.cpp:46-66 | from prior sample 00 with debounce 0, samples 01, 11, 10, 00 give four accepted -1 steps |
| `EncoderScenarios.RefusedWhileDebouncing` | src/RotaryEncoder.cpp:47-69 | a transition polled before the debounce duration has elapsed is refused: position, timestamp and the running debounce stay, while history and direction record it |
| `EncoderScenarios.DebounceSuppressesThenReleases` | src/RotaryEncoder.cpp:52-66 | with a 10 ms debounce, of Up transitions at t, t+1 and t+10 (mod 2^32) the second is refused, though direction reports Up, and the third is accepted |
| `EncoderScenarios.ZeroInitialisedBoundsFreezePosition` | src/RotaryEncoder.cpp:12-16 | as written, an instance whose storage started at zero keeps position 0 under any sequence of polls |
| `EncoderScenarios.ZeroInitialisedForwardStepIsLost` | src/RotaryEncoder.cpp:12-16 | as written, from rest such an instance accepts the forward step 11 -> 01 with direction Up but position stays 0 |
| `EncoderScenarios.DefaultBoundsTrackRotation` | src/RotaryEncoder.h:11-14 | with the header's default bounds 0..255 the position starts at 0, the first forward step moves it to 1, and no run leaves 0..255 |
| `RotaryEncoders.RotaryEncoder.constructor` | src/RotaryEncoder.cpp:12-16 | selects idle high, sets the debounce to 85 ms and resets; the bounds and timestamp are whatever the storage held, and position equals the lower bound |
| `RotaryEncoders.RotaryEncoder.WithDefaultBounds` | src/RotaryEncoder.h:11-14 | the constructor as the header describes it: bounds 0..255 and the position within them |
| `RotaryEncoders.RotaryEncoder.IdlesHigh` | src/RotaryEncoder.cpp:25-27 | sets the idle pattern to 0x03 and changes nothing else, not the live history |
| `RotaryEncoders.RotaryEncoder.IdlesLow` | src/RotaryEncoder.cpp:30-32 | sets the idle pattern to 0x00 and changes nothing else, not the live history |
| `RotaryEncoders.RotaryEncoder.DebounceTime` | src/RotaryEncoder.cpp:35-37 | sets the debounce duration and changes nothing else |
| `RotaryEncoders.RotaryEncoder.Update` | src/RotaryEncoder.cpp:43-71 | the new fields and the result are exactly `Step` of the old fields; low history bits are the sample; direction is the raw classification; returns true iff a direction and an open gate; on true a debounce starts stamped `stampNow`; on false position and stamp are unchanged; bounds invariant kept |
| `RotaryEncoders.RotaryEncoder.Direction` | src/RotaryEncoder.cpp:74-76 | the latest classification, always -1, 0 or +1 |
| `RotaryEncoders.RotaryEncoder.Increased` | src/RotaryEncoder.cpp:79-81 | true iff the latest classification is Up |
| `RotaryEncoders.RotaryEncoder.Decreased` | src/RotaryEncoder.cpp:84-86 | true iff the latest classification is Down |
| `RotaryEncoders.RotaryEncoder.PositionMin` | src/RotaryEncoder.cpp:89-94 | sets the lower bound without checking it against the upper one and raises the position to it if below; keeps the bounds invariant when the new bound is at most the upper one |
| `RotaryEncoders.RotaryEncoder.PositionMax` | src/RotaryEncoder.cpp:97-102 | sets the upper bound without checking it against the lower one and lowers the position to it if above; keeps the bounds invariant when the new bound is at least the lower one |
| `RotaryEncoders.RotaryEncoder.SetPosition` | src/RotaryEncoder.cpp:105-109 | moves the position iff the value lies within the bounds, else changes nothing; keeps the bounds invariant |
| `RotaryEncoders.RotaryEncoder.GetPosition` | src/RotaryEncoder.cpp:112-114 | the current position, within the bounds whenever the invariant holds |
| `RotaryEncoders.RotaryEncoder.Reset` | src/RotaryEncoder.cpp:117-122 | history to the idle pattern, no debounce, direction 0, position to the lower bound; bounds, debounce duration and timestamp untouched |
| `RotaryEncoders.RotaryEncoder.Retime` | src/RotaryEncoder.cpp:125-127 | sets the timestamp to the clock reading and changes nothing else |

## Left out

- `attach` and the pin fields `channelAPin`/`channelBPin`: they only name the pins that `digitalRead` samples, and the sample is a parameter here.
- `digitalRead` and `millis()` (Arduino I/O and clock): replaced by the parameters `sample`, `gateNow`, `stampNow` and `now`.
- Use of one instance from an interrupt and the main loop at once: the library has no synchronisation, and the model describes sequential calls only.
- Electrical behaviour and whether the polling rate is fast enough for the encoder: these are obligations on the caller, not behaviour of the code.
- The bounds invariant holds only while `minPosition <= maxPosition`: `PositionMin` with a value above `maxPosition` (or `PositionMax` below `minPosition`) breaks it, so the model proves that each operation preserves it rather than that it always holds.
- RotaryEncoders.RotaryEncoder.DebounceTime: takes any value below 2^32. The narrowing of a wider argument to a 16-bit `unsigned int` on AVR boards happens at the call and is not modelled.
- Quadrature.Dir: takes plain `char` (the table at src/RotaryEncoder.cpp:46, `currentDirection` at src/RotaryEncoder.h:57, the result of `direction()` at src/RotaryEncoder.h:33) as signed, as on AVR boards. Where `char` is unsigned (ARM EABI boards such as SAMD or Due) the -1 entries read as 255, so `currentDirection == DIRECTION_DOWN` at src/RotaryEncoder.cpp:62 never holds: from the idle-high history 0x03 the sample 10 (table index 14) makes `update()` return true and start a debounce without moving the position, `decreased()` is false and `direction()` returns 255. The model covers the signed reading only.
- `int` positions and bounds are unbounded integers. The code changes the position only by assignment and by one step after a strict comparison with a bound, so no `int` overflow can occur.

## Findings

| source | as written | input that shows it | evidently intended | confidence | as-written member | corrected member |
|---|---|---|---|---|---|---|
| src/RotaryEncoder.cpp:12-16 | The constructor never assigns `minPosition` or `maxPosition`; `DEFAULT_POSITIONMIN`/`DEFAULT_POSITIONMAX` (src/RotaryEncoder.h:13-14) are never used | A `RotaryEncoder` at file scope (its storage is zero-initialised), with no `positionMin`/`positionMax` call, turned one step forward from rest: `update()` returns true and `increased()` holds, but the position stays 0, and it stays 0 for any rotation | Bounds 0..255 from construction, as the comment at src/RotaryEncoder.h:11 says | not executed; high (the header states the intent) | `EncoderScenarios.ZeroInitialisedForwardStepIsLost` | `RotaryEncoders.RotaryEncoder.WithDefaultBounds` |
