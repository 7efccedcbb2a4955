/**
 * The decoding logic of RotaryEncoder::update() as pure functions: the direction
 * lookup table, the 8-bit sample history, the wrap-around elapsed time of the
 * debounce gate, and one whole polling step on a snapshot of the encoder's fields.
 * The class in rotary_encoder.dfy is specified by these functions.
 */
module Quadrature {
  import opened EncoderConstants

  /** The direction lookup table, indexed by (previous sample << 2) | current sample. */
  const StateTable: seq<int> := [0, -1, 1, 0, 1, 0, 0, -1, -1, 0, 0, 1, 0, 1, -1, 0]

  /** Direction the table assigns to the transition `prev` -> `cur`. */
  function Dir(prev: Sample, cur: Sample): (d: int)
    ensures DirectionDown <= d <= DirectionUp
  {
    StateTable[prev * 4 + cur]
  }

  /** Position of a sample along the forward cycle 00, 10, 11, 01 (a Gray code in which
      channel B is the high bit): decode the Gray code to its step number. */
  function Phase(s: Sample): int {
    var a, b := s / 2, s % 2;
    2 * b + (if a != b then 1 else 0)
  }

  /** Reference decoding of a quadrature transition, independent of the table: one step
      forward along the cycle is Up, one step back is Down, and staying put or jumping two
      steps (a missed state, whose direction cannot be known) is no motion. */
  function CycleDir(prev: Sample, cur: Sample): int {
    var step := (Phase(cur) - Phase(prev)) % 4;
    if step == 1 then DirectionUp else if step == 3 then DirectionDown else DirectionNone
  }

  /** Exactly one of the two channels differs between the two samples. */
  predicate OneChannelChanges(prev: Sample, cur: Sample) {
    (prev / 2 != cur / 2) != (prev % 2 != cur % 2)
  }

  /** The table is exactly quadrature decoding along the cycle 00, 10, 11, 01. */
  lemma DirIsCycleDecoding(prev: Sample, cur: Sample)
    ensures Dir(prev, cur) == CycleDir(prev, cur)
  {
    match prev
    case 0 =>
    case 1 =>
    case 2 =>
    case 3 =>
  }

  /** A transition moves exactly when one channel changes; no change, or both channels
      changing at once, reads as no motion. */
  lemma DirNonzeroIffOneChannelChanges(prev: Sample, cur: Sample)
    ensures Dir(prev, cur) != DirectionNone <==> OneChannelChanges(prev, cur)
  {
    match prev
    case 0 =>
    case 1 =>
    case 2 =>
    case 3 =>
  }

  /** Undoing a transition reverses its direction. */
  lemma DirReversal(prev: Sample, cur: Sample)
    ensures Dir(cur, prev) == -Dir(prev, cur)
  {
    match prev
    case 0 =>
    case 1 =>
    case 2 =>
    case 3 =>
  }

  /** The history register after `encoderState <<= 2; encoderState |= sample;` on a byte.
      The shift is a multiplication by 4 reduced modulo 2^8; it leaves the low two bits
      clear, so the OR is an addition. */
  function ShiftIn(state: Byte, sample: Sample): (r: Byte)
    ensures r % 4 == sample
  {
    (state * 4) % 0x100 + sample
  }

  /** The new sample lands in the low two bits of the history, the three previous samples
      move up one place and the oldest one falls off the top. */
  lemma ShiftInKeepsLastSamples(state: Byte, sample: Sample)
    ensures ShiftIn(state, sample) % 4 == sample
    ensures ShiftIn(state, sample) / 4 == state % 64
    ensures ShiftIn(state, sample) / 4 % 4 == state % 4
  {
    var q, r := state / 64, state % 64;
    assert state == 64 * q + r && 0 <= r < 64;
    assert (state * 4) % 0x100 == 4 * r by {
      assert state * 4 == 256 * q + 4 * r;
    }
    var h := ShiftIn(state, sample);
    assert h == 4 * r + sample;
    assert h % 4 == sample && h / 4 == r;
    assert r % 4 == state % 4 by {
      assert state == 4 * (16 * q) + r;
    }
  }

  /** The direction `stateTable[encoderState & 0x0F]` reads for a history register; the
      mask keeps the low four bits, a reduction modulo 16. */
  function Classify(state: Byte): (d: int)
    ensures DirectionDown <= d <= DirectionUp
  {
    StateTable[state % 0x10]
  }

  /** The classification of a history register is the direction from its previous sample
      (bits 3-2) to its current one (bits 1-0). */
  lemma ClassifyReadsLastTwoSamples(state: Byte)
    ensures Classify(state) == Dir(state / 4 % 4, state % 4)
  {
    LowNibble(state);
  }

  /** The low four bits of a byte are two 2-bit fields. */
  lemma LowNibble(state: Byte)
    ensures state % 0x10 == (state / 4 % 4) * 4 + state % 4
  {
    var q := state / 16;
    var r := state % 16;
    assert state == 16 * q + r;
    assert state / 4 == 4 * q + r / 4;
  }

  /** A clock reading `d` milliseconds after `t`, taken modulo 2^32, is `d` after `t`
      in wrap-around time. */
  lemma ElapsedAfterDelay(t: ULong, d: ULong)
    ensures Elapsed((t + d) % ULongModulus, t) == d
  {
  }

  /** `now - since` in `unsigned long` arithmetic: the time from `since` to `now`, correct
      across one wrap of the 32-bit millisecond clock. */
  function Elapsed(now: ULong, since: ULong): (r: ULong)
    ensures (since + r) % ULongModulus == now
    ensures since <= now ==> r == now - since
    ensures now < since ==> r == now + ULongModulus - since
  {
    (now - since) % ULongModulus
  }

  /** The fields of a RotaryEncoder that update() and the setters read and write
      (the pin numbers are left out). */
  datatype Snapshot = Snapshot(
    encoderState: Byte,
    initialState: Byte,
    previousMillis: ULong,
    debounceTimeMs: ULong,
    debouncing: bool,
    minPosition: int,
    maxPosition: int,
    currentPosition: int,
    currentDirection: int)
  {
    predicate InBounds() {
      minPosition <= currentPosition <= maxPosition
    }
  }

  /** What one update() call observes from outside: the two channel levels, the millis()
      reading the debounce gate compares, and the millis() reading stored as the timestamp
      of an accepted step. update() reads the clock at most twice: the gate reads it only
      while a debounce runs, the stamp only on an accepted step; an unused reading has no
      effect. */
  datatype Poll = Poll(sample: Sample, gateNow: ULong, stampNow: ULong)

  /** The encoder after one update() call, and the value that call returns. */
  datatype Polled = Polled(next: Snapshot, moved: bool)

  /** The state left by the constructor: idle-high history, the default debounce duration,
      not debouncing, no direction, position at minPosition. The constructor never assigns
      the bounds or the timestamp, so their values are parameters: whatever the storage held. */
  function Constructed(unsetMin: int, unsetMax: int, unsetMillis: ULong): (s: Snapshot)
    ensures s.encoderState == s.initialState == InitialStateHighIdle
    ensures s.debounceTimeMs == DefaultDebounceMs && !s.debouncing
    ensures s.currentDirection == DirectionNone
    ensures s.currentPosition == s.minPosition
    ensures s.InBounds() <==> unsetMin <= unsetMax
  {
    Snapshot(InitialStateHighIdle, InitialStateHighIdle, unsetMillis, DefaultDebounceMs, false,
             unsetMin, unsetMax, unsetMin, DirectionNone)
  }

  /** The debounce gate lets a step through: either no debounce is running, or at least
      the debounce duration has elapsed (in wrap-around time) since the last accepted step. */
  predicate GateOpen(s: Snapshot, gateNow: ULong) {
    !s.debouncing || Elapsed(gateNow, s.previousMillis) >= s.debounceTimeMs
  }

  /** The debouncing flag once the gate of update() has run: a running debounce ends when
      its duration has elapsed by the `gateNow` reading. */
  function GateDebouncing(s: Snapshot, gateNow: ULong): (debouncing: bool)
    ensures debouncing ==> s.debouncing
    ensures debouncing <==> !GateOpen(s, gateNow)
  {
    if s.debouncing && Elapsed(gateNow, s.previousMillis) >= s.debounceTimeMs then false
    else s.debouncing
  }

  /** The position after an accepted step in `direction`: one step that way unless the
      position already sits at the bound on that side. */
  function StepPosition(s: Snapshot, direction: int): (position: int)
    ensures -1 <= position - s.currentPosition <= 1
    ensures s.InBounds() ==> s.minPosition <= position <= s.maxPosition
  {
    if direction == DirectionUp && s.currentPosition < s.maxPosition then s.currentPosition + direction
    else if direction == DirectionDown && s.currentPosition > s.minPosition then s.currentPosition + direction
    else s.currentPosition
  }

  /** One call of RotaryEncoder::update(). */
  function Step(s: Snapshot, p: Poll): (r: Polled)
    ensures r.next.currentDirection == Classify(r.next.encoderState)
    ensures r.moved ==> r.next.debouncing
    ensures r.next.debouncing ==> s.debouncing || r.moved
  {
    var encoderState := ShiftIn(s.encoderState, p.sample);
    var direction := Classify(encoderState);
    var debouncing := GateDebouncing(s, p.gateNow);
    if direction != DirectionNone && !debouncing then
      Polled(s.(encoderState := encoderState, currentDirection := direction, debouncing := true,
                currentPosition := StepPosition(s, direction), previousMillis := p.stampNow),
             true)
    else
      Polled(s.(encoderState := encoderState, currentDirection := direction, debouncing := debouncing),
             false)
  }

  /** update() records the sample in the low two bits of the history, and the direction it
      records depends only on the previous sample and the new one, whatever the call returns. */
  lemma StepRecordsSample(s: Snapshot, p: Poll)
    ensures Step(s, p).next.encoderState % 4 == p.sample
    ensures Step(s, p).next.encoderState / 4 == s.encoderState % 64
    ensures Step(s, p).next.currentDirection == Dir(s.encoderState % 4, p.sample)
  {
    var h := ShiftIn(s.encoderState, p.sample);
    ShiftInKeepsLastSamples(s.encoderState, p.sample);
    ClassifyReadsLastTwoSamples(h);
  }

  /** update() returns true exactly when the transition has a direction and the gate is
      open; afterwards a debounce is running exactly when the call returned true or the
      old one has not yet run out. */
  lemma StepAcceptsIff(s: Snapshot, p: Poll)
    ensures Step(s, p).moved <==> Dir(s.encoderState % 4, p.sample) != DirectionNone && GateOpen(s, p.gateNow)
    ensures Step(s, p).next.debouncing <==> Step(s, p).moved || !GateOpen(s, p.gateNow)
  {
    StepRecordsSample(s, p);
  }

  /** An accepted step starts a new debounce stamped with the second clock reading, and moves
      the position by one in its direction unless the position already sits at that bound. */
  lemma StepAccepted(s: Snapshot, p: Poll)
    requires Step(s, p).moved
    ensures Step(s, p).next.debouncing && Step(s, p).next.previousMillis == p.stampNow
    ensures var delta := Step(s, p).next.currentPosition - s.currentPosition;
            && -1 <= delta <= 1
            && (delta == 1 <==> Dir(s.encoderState % 4, p.sample) == DirectionUp && s.currentPosition < s.maxPosition)
            && (delta == -1 <==> Dir(s.encoderState % 4, p.sample) == DirectionDown && s.currentPosition > s.minPosition)
  {
    StepRecordsSample(s, p);
  }

  /** The facts of one update() call that the class method states, for a call whose
      resulting state is `n` and whose result is `moved`. */
  lemma StepOutcome(s: Snapshot, p: Poll, n: Snapshot, moved: bool)
    requires Polled(n, moved) == Step(s, p)
    ensures n.encoderState % 4 == p.sample
    ensures n.currentDirection == Dir(s.encoderState % 4, p.sample)
    ensures moved <==> n.currentDirection != DirectionNone && GateOpen(s, p.gateNow)
    ensures moved ==> n.debouncing && n.previousMillis == p.stampNow
    ensures !moved ==> n.currentPosition == s.currentPosition && n.previousMillis == s.previousMillis
    ensures s.InBounds() ==> n.InBounds()
    ensures DirectionDown <= n.currentDirection <= DirectionUp && n.initialState == s.initialState
  {
    StepRecordsSample(s, p);
    StepAcceptsIff(s, p);
    if moved {
      StepAccepted(s, p);
    }
  }

  /** A rejected step (idle, noise, or debouncing) leaves position and timestamp alone. */
  lemma StepRejected(s: Snapshot, p: Poll)
    requires !Step(s, p).moved
    ensures Step(s, p).next.currentPosition == s.currentPosition
    ensures Step(s, p).next.previousMillis == s.previousMillis
  {
  }

  /** update() never changes the configuration: bounds, debounce duration, idle pattern. */
  lemma StepKeepsConfiguration(s: Snapshot, p: Poll)
    ensures var n := Step(s, p).next;
            && n.minPosition == s.minPosition && n.maxPosition == s.maxPosition
            && n.debounceTimeMs == s.debounceTimeMs && n.initialState == s.initialState
  {
  }

  /** update() keeps the position inside the bounds (saturating, never wrapping). */
  lemma StepPreservesBounds(s: Snapshot, p: Poll)
    requires s.InBounds()
    ensures Step(s, p).next.InBounds()
  {
  }

  /** With a debounce duration of zero the gate is always open: every transition with a
      direction is accepted. */
  lemma ZeroDebounceAcceptsEveryChange(s: Snapshot, p: Poll)
    requires s.debounceTimeMs == 0
    ensures Step(s, p).moved <==> Dir(s.encoderState % 4, p.sample) != DirectionNone
  {
    StepAcceptsIff(s, p);
  }

  /** Once the debounce duration has elapsed since the last accepted step, the next
      transition with a direction is accepted. */
  lemma GateReleasesAfterDuration(s: Snapshot, p: Poll)
    requires Elapsed(p.gateNow, s.previousMillis) >= s.debounceTimeMs
    requires Dir(s.encoderState % 4, p.sample) != DirectionNone
    ensures Step(s, p).moved
  {
    StepAcceptsIff(s, p);
  }

  /** The recorded direction is the raw classification even when update() returns false:
      a transition seen while debouncing leaves the position where it was, yet the
      direction (and so increased() or decreased()) reports it. */
  lemma DirectionReportsRejectedChange(s: Snapshot, p: Poll)
    requires !GateOpen(s, p.gateNow)
    requires Dir(s.encoderState % 4, p.sample) != DirectionNone
    ensures !Step(s, p).moved
    ensures Step(s, p).next.currentPosition == s.currentPosition
    ensures Step(s, p).next.currentDirection == Dir(s.encoderState % 4, p.sample) != DirectionNone
  {
    StepAcceptsIff(s, p);
    StepRecordsSample(s, p);
  }
}
