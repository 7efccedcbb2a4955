/**
 * Sequences of update() calls on the pure model: what holds over any run, the
 * behaviour on full quadrature cycles, and the debounce gate over several polls.
 */
module EncoderScenarios {
  import opened EncoderConstants
  import opened Quadrature

  /** The encoder after a sequence of update() calls, and what each call returned. */
  datatype Trace = Trace(final: Snapshot, accepted: seq<bool>)

  /** update() called once per poll, in order. */
  function Run(s: Snapshot, polls: seq<Poll>): (t: Trace)
    ensures |t.accepted| == |polls|
    decreases |polls|
  {
    if polls == [] then Trace(s, [])
    else
      var first := Step(s, polls[0]);
      var rest := Run(first.next, polls[1..]);
      Trace(rest.final, [first.moved] + rest.accepted)
  }

  /** How many of the calls returned true. */
  function CountAccepted(accepted: seq<bool>): (n: nat)
    ensures n <= |accepted|
  {
    if accepted == [] then 0
    else (if accepted[0] then 1 else 0) + CountAccepted(accepted[1..])
  }

  /** No sequence of polls changes the bounds, the debounce duration or the idle pattern. */
  lemma {:induction false} RunKeepsConfiguration(s: Snapshot, polls: seq<Poll>)
    ensures var f := Run(s, polls).final;
            && f.minPosition == s.minPosition && f.maxPosition == s.maxPosition
            && f.debounceTimeMs == s.debounceTimeMs && f.initialState == s.initialState
    decreases |polls|
  {
    if polls != [] {
      StepKeepsConfiguration(s, polls[0]);
      RunKeepsConfiguration(Step(s, polls[0]).next, polls[1..]);
    }
  }

  /** Bounds invariant: a position inside the bounds stays inside them over any run. */
  lemma {:induction false} RunPreservesBounds(s: Snapshot, polls: seq<Poll>)
    requires s.InBounds()
    ensures Run(s, polls).final.InBounds()
    decreases |polls|
  {
    if polls != [] {
      StepPreservesBounds(s, polls[0]);
      RunPreservesBounds(Step(s, polls[0]).next, polls[1..]);
    }
  }

  /** The position moves by at most one per call that returned true, and not at all on
      the others. */
  lemma {:induction false} RunMovesAtMostOncePerAcceptedStep(s: Snapshot, polls: seq<Poll>)
    ensures var t := Run(s, polls);
            s.currentPosition - CountAccepted(t.accepted) <= t.final.currentPosition
            <= s.currentPosition + CountAccepted(t.accepted)
    decreases |polls|
  {
    if polls != [] {
      var first := Step(s, polls[0]);
      if first.moved {
        StepAccepted(s, polls[0]);
      } else {
        StepRejected(s, polls[0]);
      }
      RunMovesAtMostOncePerAcceptedStep(first.next, polls[1..]);
      var t := Run(s, polls);
      assert t.accepted[1..] == Run(first.next, polls[1..]).accepted;
    }
  }

  /** One accepted single-channel step with the gate open and room to move. */
  lemma AcceptedMove(s: Snapshot, p: Poll, dir: int)
    requires GateOpen(s, p.gateNow)
    requires Dir(s.encoderState % 4, p.sample) == dir != DirectionNone
    requires s.minPosition <= s.currentPosition + dir <= s.maxPosition
    ensures Step(s, p).moved
    ensures Step(s, p).next.currentPosition == s.currentPosition + dir
    ensures Step(s, p).next.encoderState % 4 == p.sample
    ensures Step(s, p).next.currentDirection == dir
    ensures Step(s, p).next.debounceTimeMs == s.debounceTimeMs
    ensures Step(s, p).next.minPosition == s.minPosition && Step(s, p).next.maxPosition == s.maxPosition
  {
    StepRecordsSample(s, p);
    StepAcceptsIff(s, p);
    StepAccepted(s, p);
  }

  /** Starting from prior sample 00 with no debounce, the forward cycle 10, 11, 01, 00
      is four accepted Up steps: the position rises by four and the history is back at 00. */
  lemma ForwardCycleCountsFourUp(s: Snapshot, polls: seq<Poll>)
    requires s.encoderState % 4 == 0 && s.debounceTimeMs == 0
    requires s.minPosition <= s.currentPosition && s.currentPosition + 4 <= s.maxPosition
    requires |polls| == 4
    requires polls[0].sample == 2 && polls[1].sample == 3 && polls[2].sample == 1 && polls[3].sample == 0
    ensures Run(s, polls).accepted == [true, true, true, true]
    ensures Run(s, polls).final.currentPosition == s.currentPosition + 4
    ensures Run(s, polls).final.currentDirection == DirectionUp
    ensures Run(s, polls).final.encoderState % 4 == 0
  {
    var s1 := Step(s, polls[0]).next;
    AcceptedMove(s, polls[0], DirectionUp);
    var s2 := Step(s1, polls[1]).next;
    AcceptedMove(s1, polls[1], DirectionUp);
    var s3 := Step(s2, polls[2]).next;
    AcceptedMove(s2, polls[2], DirectionUp);
    var s4 := Step(s3, polls[3]).next;
    AcceptedMove(s3, polls[3], DirectionUp);
    assert Run(s3, polls[3..]) == Trace(s4, [true]) by {
      assert polls[3..][1..] == [];
    }
    assert Run(s2, polls[2..]) == Trace(s4, [true, true]) by {
      assert polls[2..][1..] == polls[3..];
    }
    assert Run(s1, polls[1..]) == Trace(s4, [true, true, true]) by {
      assert polls[1..][1..] == polls[2..];
    }
  }

  /** The mirror cycle 01, 11, 10, 00 from prior sample 00 is four accepted Down steps. */
  lemma ReverseCycleCountsFourDown(s: Snapshot, polls: seq<Poll>)
    requires s.encoderState % 4 == 0 && s.debounceTimeMs == 0
    requires s.currentPosition <= s.maxPosition && s.minPosition <= s.currentPosition - 4
    requires |polls| == 4
    requires polls[0].sample == 1 && polls[1].sample == 3 && polls[2].sample == 2 && polls[3].sample == 0
    ensures Run(s, polls).accepted == [true, true, true, true]
    ensures Run(s, polls).final.currentPosition == s.currentPosition - 4
    ensures Run(s, polls).final.currentDirection == DirectionDown
    ensures Run(s, polls).final.encoderState % 4 == 0
  {
    var s1 := Step(s, polls[0]).next;
    AcceptedMove(s, polls[0], DirectionDown);
    var s2 := Step(s1, polls[1]).next;
    AcceptedMove(s1, polls[1], DirectionDown);
    var s3 := Step(s2, polls[2]).next;
    AcceptedMove(s2, polls[2], DirectionDown);
    var s4 := Step(s3, polls[3]).next;
    AcceptedMove(s3, polls[3], DirectionDown);
    assert Run(s3, polls[3..]) == Trace(s4, [true]) by {
      assert polls[3..][1..] == [];
    }
    assert Run(s2, polls[2..]) == Trace(s4, [true, true]) by {
      assert polls[2..][1..] == polls[3..];
    }
    assert Run(s1, polls[1..]) == Trace(s4, [true, true, true]) by {
      assert polls[1..][1..] == polls[2..];
    }
  }

  /** A transition seen while the debounce still runs is refused: it leaves position,
      timestamp and debounce as they were, but is recorded in the history and the direction. */
  lemma RefusedWhileDebouncing(s: Snapshot, p: Poll)
    requires s.debouncing && Elapsed(p.gateNow, s.previousMillis) < s.debounceTimeMs
    ensures !Step(s, p).moved
    ensures var n := Step(s, p).next;
            && n.debouncing && n.previousMillis == s.previousMillis
            && n.currentPosition == s.currentPosition
            && n.encoderState % 4 == p.sample
            && n.currentDirection == Dir(s.encoderState % 4, p.sample)
            && n.debounceTimeMs == s.debounceTimeMs
            && n.minPosition == s.minPosition && n.maxPosition == s.maxPosition
  {
    StepRecordsSample(s, p);
  }

  /** With a 10 ms debounce, an Up transition accepted at `t` blocks the Up transition polled
      1 ms later (also when the 32-bit clock wraps in between): that call returns false and
      leaves the position, yet the direction reports Up. The Up transition polled 10 ms after
      the accepted one is accepted again. */
  lemma DebounceSuppressesThenReleases(s: Snapshot, t: ULong, polls: seq<Poll>)
    requires s.encoderState % 4 == 0 && s.debounceTimeMs == 10 && !s.debouncing
    requires s.minPosition <= s.currentPosition && s.currentPosition + 2 <= s.maxPosition
    requires polls == [Poll(2, t, t),
                       Poll(3, (t + 1) % ULongModulus, (t + 1) % ULongModulus),
                       Poll(1, (t + 10) % ULongModulus, (t + 10) % ULongModulus)]
    ensures Run(s, polls[..2]).accepted == [true, false]
    ensures Run(s, polls[..2]).final.currentPosition == s.currentPosition + 1
    ensures Run(s, polls[..2]).final.currentDirection == DirectionUp
    ensures Run(s, polls).accepted == [true, false, true]
    ensures Run(s, polls).final.currentPosition == s.currentPosition + 2
  {
    var p1, p2, p3 := polls[0], polls[1], polls[2];
    var s1 := Step(s, p1).next;
    AcceptedMove(s, p1, DirectionUp);
    StepAccepted(s, p1);
    var s2 := Step(s1, p2).next;
    ElapsedAfterDelay(t, 1);
    RefusedWhileDebouncing(s1, p2);
    var s3 := Step(s2, p3).next;
    ElapsedAfterDelay(t, 10);
    AcceptedMove(s2, p3, DirectionUp);
    assert Run(s1, polls[..2][1..]) == Trace(s2, [false]) by {
      assert polls[..2][1..] == [p2];
    }
    assert Run(s2, polls[2..]) == Trace(s3, [true]) by {
      assert polls[2..] == [p3];
    }
    assert Run(s1, polls[1..]) == Trace(s3, [false, true]) by {
      assert polls[1..] == [p2, p3];
    }
  }

  /** As written: an instance at file scope has zero-initialised storage and the constructor
      never assigns the bounds, so both are 0 and the position stays 0 whatever is polled. */
  lemma ZeroInitialisedBoundsFreezePosition(unsetMillis: ULong, polls: seq<Poll>)
    ensures Run(Constructed(0, 0, unsetMillis), polls).final.currentPosition == 0
  {
    RunPreservesBounds(Constructed(0, 0, unsetMillis), polls);
    RunKeepsConfiguration(Constructed(0, 0, unsetMillis), polls);
  }

  /** As written, concretely: from rest, the forward transition 11 -> 01 is accepted
      (update() returns true and increased() holds) but the position does not move. */
  lemma ZeroInitialisedForwardStepIsLost(unsetMillis: ULong, t: ULong)
    ensures Step(Constructed(0, 0, unsetMillis), Poll(1, t, t)).moved
    ensures Step(Constructed(0, 0, unsetMillis), Poll(1, t, t)).next.currentDirection == DirectionUp
    ensures Step(Constructed(0, 0, unsetMillis), Poll(1, t, t)).next.currentPosition == 0
  {
    StepRecordsSample(Constructed(0, 0, unsetMillis), Poll(1, t, t));
  }

  /** Corrected: with the default bounds 0..255 the header names, the position starts at 0,
      the first forward step from rest moves it to 1, and no run leaves 0..255. */
  lemma DefaultBoundsTrackRotation(unsetMillis: ULong, t: ULong, polls: seq<Poll>)
    ensures var s := Constructed(DefaultPositionMin, DefaultPositionMax, unsetMillis);
            && s.currentPosition == 0
            && Step(s, Poll(1, t, t)).moved
            && Step(s, Poll(1, t, t)).next.currentPosition == 1
            && 0 <= Run(s, polls).final.currentPosition <= 255
  {
    var s := Constructed(DefaultPositionMin, DefaultPositionMax, unsetMillis);
    AcceptedMove(s, Poll(1, t, t), DirectionUp);
    RunPreservesBounds(s, polls);
    RunKeepsConfiguration(s, polls);
  }
}
