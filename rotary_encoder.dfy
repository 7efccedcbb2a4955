/**
 * The RotaryEncoder class (src/RotaryEncoder.h, src/RotaryEncoder.cpp) with the fields its
 * methods update in place. The two Arduino capabilities update() calls are parameters:
 * the two channel levels read by digitalRead() arrive as one 2-bit sample, and the two
 * millis() readings as two timestamps. Pin assignment (attach) is not modelled.
 */
module RotaryEncoders {
  import opened EncoderConstants
  import opened Quadrature

  class RotaryEncoder {
    var encoderState: Byte        // history of the last four 2-bit samples, newest lowest
    var initialState: Byte        // history pattern that reset() loads
    var previousMillis: ULong     // millis() at the last accepted step, or at retime()
    var debounceTimeMs: ULong     // minimum time between two accepted steps
    var debouncing: bool          // a debounce is running: steps are being refused
    var minPosition: int
    var maxPosition: int
    var currentPosition: int
    var currentDirection: int     // classification made by the latest update()

    /** The fields as a value, for the functions in Quadrature. */
    ghost function View(): Snapshot
      reads this
    {
      Snapshot(encoderState, initialState, previousMillis, debounceTimeMs, debouncing,
               minPosition, maxPosition, currentPosition, currentDirection)
    }

    /** What every method keeps: the direction is one of the three direction values and
        the idle pattern is one of the two idle patterns. */
    ghost predicate Valid()
      reads this
    {
      && DirectionDown <= currentDirection <= DirectionUp
      && (initialState == InitialStateHighIdle || initialState == InitialStateLowIdle)
    }

    /** The position lies within the bounds. Not kept unconditionally: positionMin and
        positionMax accept bounds that exclude the position's other side. */
    ghost predicate InBounds()
      reads this
    {
      View().InBounds()
    }

    /** The constructor: idle high, the default debounce duration, then reset(). It never
        assigns the bounds or the timestamp; `unsetMin`, `unsetMax` and `unsetMillis` stand
        for whatever the object's storage held (all zero for an instance at file scope). */
    constructor (unsetMin: int, unsetMax: int, unsetMillis: ULong)
      ensures Valid()
      ensures View() == Constructed(unsetMin, unsetMax, unsetMillis)
      ensures unsetMin <= unsetMax ==> InBounds()
    {
      minPosition, maxPosition := unsetMin, unsetMax;
      previousMillis := unsetMillis;
      new;
      IdlesHigh();
      debounceTimeMs := DefaultDebounceMs;
      Reset();
    }

    /** The constructor as the library's header describes it: the bounds start at
        DEFAULT_POSITIONMIN and DEFAULT_POSITIONMAX, so the position starts at 0 in 0..255. */
    constructor WithDefaultBounds(unsetMillis: ULong)
      ensures Valid() && InBounds()
      ensures View() == Constructed(DefaultPositionMin, DefaultPositionMax, unsetMillis)
    {
      minPosition, maxPosition := DefaultPositionMin, DefaultPositionMax;
      previousMillis := unsetMillis;
      new;
      IdlesHigh();
      debounceTimeMs := DefaultDebounceMs;
      Reset();
    }

    /** Channels read high when the encoder rests: reset() will load history 0b11.
        The live history is not touched. */
    method IdlesHigh()
      modifies this`initialState
      ensures initialState == InitialStateHighIdle
      ensures old(Valid()) ==> Valid()
    {
      initialState := InitialStateHighIdle;
    }

    /** Channels read low when the encoder rests: reset() will load history 0b00.
        The live history is not touched. */
    method IdlesLow()
      modifies this`initialState
      ensures initialState == InitialStateLowIdle
      ensures old(Valid()) ==> Valid()
    {
      initialState := InitialStateLowIdle;
    }

    /** Sets the debounce (rate limiting) duration; zero disables it. */
    method DebounceTime(debounceMs: ULong)
      modifies this`debounceTimeMs
      ensures debounceTimeMs == debounceMs
    {
      debounceTimeMs := debounceMs;
    }

    /** RotaryEncoder::update(): shift the new sample into the history, classify the
        transition, run the debounce gate against `gateNow`, and on an accepted step move
        the position (saturating at the bounds) and stamp it with `stampNow`. */
    method Update(sample: Sample, gateNow: ULong, stampNow: ULong) returns (moved: bool)
      requires Valid()
      modifies this
      ensures Valid()
      ensures Polled(View(), moved) == Step(old(View()), Poll(sample, gateNow, stampNow))
      ensures encoderState % 4 == sample
      ensures currentDirection == Dir(old(encoderState) % 4, sample)
      ensures moved <==> currentDirection != DirectionNone && GateOpen(old(View()), gateNow)
      ensures moved ==> debouncing && previousMillis == stampNow
      ensures !moved ==> currentPosition == old(currentPosition) && previousMillis == old(previousMillis)
      ensures old(InBounds()) ==> InBounds()
    {
      ghost var before := View();
      ghost var poll := Poll(sample, gateNow, stampNow);
      encoderState := ShiftIn(encoderState, sample);
      currentDirection := Classify(encoderState);
      if debouncing && Elapsed(gateNow, previousMillis) >= debounceTimeMs {
        debouncing := false;
      }
      assert debouncing == GateDebouncing(before, gateNow);
      if currentDirection != DirectionNone && !debouncing {
        debouncing := true;
        if currentDirection == DirectionUp && currentPosition < maxPosition {
          currentPosition := currentPosition + currentDirection;
        } else if currentDirection == DirectionDown && currentPosition > minPosition {
          currentPosition := currentPosition + currentDirection;
        }
        assert currentPosition == StepPosition(before, currentDirection);
        previousMillis := stampNow;
        moved := true;
      } else {
        moved := false;
      }
      StepOutcome(before, poll, View(), moved);
    }

    /** The classification made by the latest update(), whether or not it was accepted. */
    function Direction(): (d: int)
      reads this
      requires Valid()
      ensures d in {DirectionDown, DirectionNone, DirectionUp}
      ensures d == View().currentDirection
    {
      currentDirection
    }

    /** The latest update() classified its transition as Up. */
    function Increased(): (up: bool)
      reads this
      requires Valid()
      ensures up <==> Direction() == DirectionUp
    {
      currentDirection == DirectionUp
    }

    /** The latest update() classified its transition as Down. */
    function Decreased(): (down: bool)
      reads this
      requires Valid()
      ensures down <==> Direction() == DirectionDown
    {
      currentDirection == DirectionDown
    }

    /** Sets the lower bound and raises the position to it if it lies below. The new bound
        is not checked against the upper one. */
    method PositionMin(minValue: int)
      modifies this`minPosition, this`currentPosition
      ensures minPosition == minValue
      ensures currentPosition == if old(currentPosition) < minValue then minValue else old(currentPosition)
      ensures minPosition <= currentPosition
      ensures old(currentPosition) <= maxPosition && minValue <= maxPosition ==> InBounds()
    {
      minPosition := minValue;
      if currentPosition < minPosition {
        currentPosition := minPosition;
      }
    }

    /** Sets the upper bound and lowers the position to it if it lies above. The new bound
        is not checked against the lower one. */
    method PositionMax(maxValue: int)
      modifies this`maxPosition, this`currentPosition
      ensures maxPosition == maxValue
      ensures currentPosition == if old(currentPosition) > maxValue then maxValue else old(currentPosition)
      ensures currentPosition <= maxPosition
      ensures minPosition <= old(currentPosition) && minPosition <= maxValue ==> InBounds()
    {
      maxPosition := maxValue;
      if currentPosition > maxValue {
        currentPosition := maxValue;
      }
    }

    /** Moves the position to `newPosition` if it lies within the bounds; otherwise
        silently does nothing. */
    method SetPosition(newPosition: int)
      modifies this`currentPosition
      ensures minPosition <= newPosition <= maxPosition ==> currentPosition == newPosition
      ensures !(minPosition <= newPosition <= maxPosition) ==> currentPosition == old(currentPosition)
      ensures old(InBounds()) ==> InBounds()
    {
      if newPosition >= minPosition && newPosition <= maxPosition {
        currentPosition := newPosition;
      }
    }

    /** The current position. */
    function GetPosition(): (position: int)
      reads this
      ensures InBounds() ==> minPosition <= position <= maxPosition
      ensures position == View().currentPosition
    {
      currentPosition
    }

    /** Back to the idle state: history to the idle pattern, no debounce running, no
        direction, position at the lower bound. Bounds, debounce duration and timestamp
        are left as they are. */
    method Reset()
      modifies this`encoderState, this`debouncing, this`currentDirection, this`currentPosition
      ensures old(Valid()) ==> Valid()
      ensures initialState == InitialStateHighIdle || initialState == InitialStateLowIdle ==> Valid()
      ensures encoderState == initialState && !debouncing
      ensures currentDirection == DirectionNone && currentPosition == minPosition
      ensures minPosition <= maxPosition ==> InBounds()
    {
      encoderState := initialState;
      debouncing := false;
      currentDirection := DirectionNone;
      currentPosition := minPosition;
    }

    /** Restarts the debounce clock at `now` (the millis() reading), changing nothing else. */
    method Retime(now: ULong)
      modifies this`previousMillis
      ensures previousMillis == now
    {
      previousMillis := now;
    }
  }
}
