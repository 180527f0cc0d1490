/**
 * The overflow-safe microsecond difference and the pulse-measuring loop of
 * the sketch (sketch/pulseInCustom.cpp).
 *
 * The hardware is replaced by two finite streams of readings, consumed in the
 * order the code asks for them: `clock` holds the successive values returned
 * by `micros()`, `levels` the successive values returned by `digitalRead(pin)`.
 */
module PulseIn {

  /** Width in bits of `unsigned long` on the Arduino targets. */
  const Bits: nat := 32
  /** 2^Bits: unsigned arithmetic on `unsigned long` is modulo this number. */
  const Modulus: int := 0x1_0000_0000
  /** `ULONG_MAX` */
  const ULongMax: int := Modulus - 1

  type ULong = x: int | 0 <= x < 0x1_0000_0000
  type UInt8 = x: int | 0 <= x < 256
  /** What `digitalRead` returns: LOW (0) or HIGH (1). */
  type PinLevel = x: int | 0 <= x <= 1

  function Pow2(n: nat): (p: nat)
    ensures p >= 1
  {
    if n == 0 then 1 else 2 * Pow2(n - 1)
  }

  lemma {:induction false} Pow2Add(a: nat, b: nat)
    ensures Pow2(a + b) == Pow2(a) * Pow2(b)
  {
    if a > 0 {
      Pow2Add(a - 1, b);
    }
  }

  /** The constant used for `unsigned long` really is 2^Bits. */
  lemma ModulusIsPow2()
    ensures Modulus == Pow2(Bits)
  {
    assert Pow2(8) == 256;
    Pow2Add(8, 8);
    Pow2Add(16, 16);
  }

  /**
   * `safeMicrosDiff`: the time from `start` to `end` on a counter that wraps
   * at 2^Bits. The intermediate values of the wrap branch are typed ULong, so
   * verification shows that none of them leaves the range of `unsigned long`.
   */
  function SafeMicrosDiff(start: ULong, end: ULong): (r: ULong)
    ensures r == (end - start) % Modulus
    ensures end >= start ==> r == end - start
    ensures end < start ==> r == (ULongMax - start) + end + 1
  {
    if end >= start then
      end - start
    else
      var headroom: ULong := ULongMax - start;
      var partial: ULong := headroom + end;
      partial + 1
  }

  /** `safeMicrosDiff` is subtraction modulo 2^Bits, Bits being the width of `unsigned long`. */
  lemma DiffIsSubtractionModPow2(start: ULong, end: ULong)
    ensures SafeMicrosDiff(start, end) == (end - start) % Pow2(Bits)
  {
    ModulusIsPow2();
  }

  /** The difference is the unique distance d < 2^Bits with start + d == end (mod 2^Bits). */
  lemma DiffIsForwardDistance(start: ULong, end: ULong, d: int)
    requires 0 <= d < Modulus
    ensures (start + d) % Modulus == end <==> d == SafeMicrosDiff(start, end)
  {
  }

  lemma DiffSelf(t: ULong)
    ensures SafeMicrosDiff(t, t) == 0
  {
  }

  lemma DiffRoundTrip(start: ULong, end: ULong)
    ensures (start + SafeMicrosDiff(start, end)) % Modulus == end
  {
  }

  // ---------------------------------------------------------------------
  // pulseInCustom

  /** The three polling loops, in the order the code runs them. */
  datatype Phase =
    | AwaitIdle      // wait while the pin is already in `state`
    | AwaitPulse     // wait until the pin enters `state`
    | AwaitPulseEnd  // measure how long the pin stays in `state`

  /** The condition that keeps a phase's loop polling. */
  predicate Polling(phase: Phase, level: PinLevel, state: UInt8)
  {
    if phase == AwaitPulse then level != state else level == state
  }

  /** How one phase's loop ends. */
  datatype PhaseExit =
    | Left(nextLevel: nat, nextClock: nat)  // the loop condition failed; stream positions after it
    | TimedOut(overall: bool)               // a `return 0`: phase budget, or overall budget if `overall`
    | OutOfTrace                            // the finite streams ran out (no counterpart on hardware)

  /**
   * One polling loop, started with `li` level readings and `ci` clock
   * readings consumed; `since` is the phase's own start time.
   */
  function PollPhase(phase: Phase, state: UInt8, timeout: ULong, levels: seq<PinLevel>, clock: seq<ULong>,
                     li: nat, ci: nat, since: ULong, overallStart: ULong): (x: PhaseExit)
    decreases |levels| - li
  {
    if li >= |levels| then OutOfTrace
    else if !Polling(phase, levels[li], state) then Left(li + 1, ci)
    else if ci >= |clock| then OutOfTrace
    else if SafeMicrosDiff(since, clock[ci]) > timeout then TimedOut(false)
    else if SafeMicrosDiff(overallStart, clock[ci]) > timeout then TimedOut(true)
    else PollPhase(phase, state, timeout, levels, clock, li + 1, ci + 1, since, overallStart)
  }

  /** What one call of `pulseInCustom` observes. */
  datatype Measurement =
    | Measured(pulseStart: ULong, pulseEnd: ULong)
    | GaveUp(phase: Phase, overall: bool)
    | TraceTooShort

  /** The call as a whole: `micros()` twice, then the three phases with a `micros()` between them. */
  function Measure(state: UInt8, timeout: ULong, levels: seq<PinLevel>, clock: seq<ULong>): Measurement
  {
    if |clock| < 2 then TraceTooShort
    else
      var overallStart := clock[0];
      match PollPhase(AwaitIdle, state, timeout, levels, clock, 0, 2, clock[1], overallStart)
      case OutOfTrace => TraceTooShort
      case TimedOut(o) => GaveUp(AwaitIdle, o)
      case Left(l1, c1) =>
        if c1 >= |clock| then TraceTooShort
        else
          match PollPhase(AwaitPulse, state, timeout, levels, clock, l1, c1 + 1, clock[c1], overallStart)
          case OutOfTrace => TraceTooShort
          case TimedOut(o) => GaveUp(AwaitPulse, o)
          case Left(l2, c2) =>
            if c2 >= |clock| then TraceTooShort
            else
              match PollPhase(AwaitPulseEnd, state, timeout, levels, clock, l2, c2 + 1, clock[c2], overallStart)
              case OutOfTrace => TraceTooShort
              case TimedOut(o) => GaveUp(AwaitPulseEnd, o)
              case Left(l3, c3) =>
                if c3 >= |clock| then TraceTooShort else Measured(clock[c2], clock[c3])
  }

  datatype PulseResult = Returned(micros: ULong) | TraceExhausted

  /** The value `pulseInCustom` returns for a measurement. */
  function Outcome(m: Measurement): (r: PulseResult)
    ensures m.GaveUp? ==> r == Returned(0)
    ensures m.Measured? ==> r == Returned(SafeMicrosDiff(m.pulseStart, m.pulseEnd))
    ensures r.Returned? && r.micros != 0 ==> m.Measured?
    ensures r.TraceExhausted? <==> m.TraceTooShort?
  {
    match m
    case Measured(s, e) => Returned(SafeMicrosDiff(s, e))
    case GaveUp(_, _) => Returned(0)
    case TraceTooShort => TraceExhausted
  }

  /**
   * One of the three `while` loops of `pulseInCustom`: read the pin, and while
   * it keeps the phase polling read the clock and give up when either the
   * phase's or the overall elapsed time exceeds `timeout`.
   */
  method Poll(phase: Phase, state: UInt8, timeout: ULong, levels: seq<PinLevel>, clock: seq<ULong>,
              li0: nat, ci0: nat, since: ULong, overallStart: ULong)
    returns (x: PhaseExit)
    requires ci0 <= |clock|
    ensures x == PollPhase(phase, state, timeout, levels, clock, li0, ci0, since, overallStart)
  {
    var li: nat, ci: nat := li0, ci0;
    while li < |levels| && Polling(phase, levels[li], state)
      invariant li0 <= li && ci <= |clock|
      invariant PollPhase(phase, state, timeout, levels, clock, li, ci, since, overallStart)
                == PollPhase(phase, state, timeout, levels, clock, li0, ci0, since, overallStart)
      decreases |levels| - li
    {
      li := li + 1;
      if ci >= |clock| {
        return OutOfTrace;
      }
      var current := clock[ci];
      ci := ci + 1;
      var elapsed := SafeMicrosDiff(since, current);
      if elapsed > timeout {
        return TimedOut(false);
      }
      var overallElapsed := SafeMicrosDiff(overallStart, current);
      if overallElapsed > timeout {
        return TimedOut(true);
      }
    }
    if li >= |levels| {
      return OutOfTrace;
    }
    return Left(li + 1, ci);
  }

  /**
   * `pulseInCustom(pin, state, timeout)`, where `levels` are the readings of
   * `pin`; a timed-out phase returns 0.
   */
  method PulseInCustom(state: UInt8, timeout: ULong, levels: seq<PinLevel>, clock: seq<ULong>)
    returns (r: PulseResult)
    ensures r == Outcome(Measure(state, timeout, levels, clock))
  {
    if |clock| < 2 {
      return TraceExhausted;
    }
    var overallStart := clock[0];
    var waitStart := clock[1];

    // the pin must first be out of `state`
    var x := Poll(AwaitIdle, state, timeout, levels, clock, 0, 2, waitStart, overallStart);
    if !x.Left? {
      return if x.TimedOut? then Returned(0) else TraceExhausted;
    }
    if x.nextClock >= |clock| {
      return TraceExhausted;
    }

    // wait for the pin to enter `state`
    waitStart := clock[x.nextClock];
    x := Poll(AwaitPulse, state, timeout, levels, clock, x.nextLevel, x.nextClock + 1, waitStart, overallStart);
    if !x.Left? {
      return if x.TimedOut? then Returned(0) else TraceExhausted;
    }
    if x.nextClock >= |clock| {
      return TraceExhausted;
    }

    // the pulse has started; wait for it to end
    var pulseStart := clock[x.nextClock];
    x := Poll(AwaitPulseEnd, state, timeout, levels, clock, x.nextLevel, x.nextClock + 1, pulseStart, overallStart);
    if !x.Left? {
      return if x.TimedOut? then Returned(0) else TraceExhausted;
    }
    if x.nextClock >= |clock| {
      return TraceExhausted;
    }
    var pulseEnd := clock[x.nextClock];
    return Returned(SafeMicrosDiff(pulseStart, pulseEnd));
  }

  // ---------------------------------------------------------------------
  // What a measurement means, stated on the streams

  /** A clock reading that passes both checks of a loop iteration. */
  predicate WithinBudget(timeout: ULong, since: ULong, overallStart: ULong, current: ULong)
  {
    SafeMicrosDiff(since, current) <= timeout && SafeMicrosDiff(overallStart, current) <= timeout
  }

  /**
   * A phase that consumed the level readings li..nl-1 and the clock readings
   * ci..nc-1 and then left its loop: every reading but the last kept it
   * polling, the last one did not, and no clock reading broke a budget.
   */
  predicate CleanPhase(phase: Phase, state: UInt8, timeout: ULong, levels: seq<PinLevel>, clock: seq<ULong>,
                       li: nat, ci: nat, since: ULong, overallStart: ULong, nl: nat, nc: nat)
  {
    && li < nl <= |levels|
    && nc == ci + (nl - 1 - li) <= |clock|
    && (forall k :: li <= k < nl - 1 ==> Polling(phase, levels[k], state))
    && !Polling(phase, levels[nl - 1], state)
    && (forall k :: ci <= k < nc ==> WithinBudget(timeout, since, overallStart, clock[k]))
  }

  /** A phase's loop is left normally exactly when the phase ran clean. */
  lemma {:induction false} PollPhaseLeftIff(phase: Phase, state: UInt8, timeout: ULong, levels: seq<PinLevel>,
                                            clock: seq<ULong>, li: nat, ci: nat, since: ULong, overallStart: ULong,
                                            nl: nat, nc: nat)
    requires ci <= |clock|
    ensures PollPhase(phase, state, timeout, levels, clock, li, ci, since, overallStart) == Left(nl, nc)
            <==> CleanPhase(phase, state, timeout, levels, clock, li, ci, since, overallStart, nl, nc)
    decreases |levels| - li
  {
    // When the first poll already ends the phase, both sides are decided by
    // that poll; otherwise the phase continues at li + 1, ci + 1.
    if li < |levels| && Polling(phase, levels[li], state) && ci < |clock|
       && WithinBudget(timeout, since, overallStart, clock[ci])
    {
      PollPhaseLeftIff(phase, state, timeout, levels, clock, li + 1, ci + 1, since, overallStart, nl, nc);
      if CleanPhase(phase, state, timeout, levels, clock, li, ci, since, overallStart, nl, nc) {
        assert CleanPhase(phase, state, timeout, levels, clock, li + 1, ci + 1, since, overallStart, nl, nc);
      }
      if CleanPhase(phase, state, timeout, levels, clock, li + 1, ci + 1, since, overallStart, nl, nc) {
        assert forall k :: li <= k < nl - 1 ==> Polling(phase, levels[k], state);
        assert forall k :: ci <= k < nc ==> WithinBudget(timeout, since, overallStart, clock[k]);
      }
    }
  }

  /**
   * The pin was seen out of `state` (phase 1 ends at level reading i1 - 1),
   * then entering `state` (phase 2 ends at reading i2 - 1), then leaving it
   * again (phase 3 ends at reading i3 - 1), with every poll within both
   * budgets; the pulse start is the clock reading taken right after phase 2
   * ended and the pulse end the one taken right after phase 3 ended.
   */
  predicate ObservedPulse(state: UInt8, timeout: ULong, levels: seq<PinLevel>, clock: seq<ULong>,
                          i1: nat, i2: nat, i3: nat, pulseStart: ULong, pulseEnd: ULong)
  {
    && i1 < i2 < i3 && i3 + 1 < |clock|
    && CleanPhase(AwaitIdle, state, timeout, levels, clock, 0, 2, clock[1], clock[0], i1, i1 + 1)
    && CleanPhase(AwaitPulse, state, timeout, levels, clock, i1, i1 + 2, clock[i1 + 1], clock[0], i2, i2 + 1)
    && CleanPhase(AwaitPulseEnd, state, timeout, levels, clock, i2, i2 + 2, clock[i2 + 1], clock[0], i3, i3 + 1)
    && pulseStart == clock[i2 + 1]
    && pulseEnd == clock[i3 + 1]
  }

  /** A measured pulse was observed in the streams. */
  lemma MeasuredShowsPulse(state: UInt8, timeout: ULong, levels: seq<PinLevel>, clock: seq<ULong>,
                           pulseStart: ULong, pulseEnd: ULong)
    requires Measure(state, timeout, levels, clock) == Measured(pulseStart, pulseEnd)
    ensures exists i1: nat, i2: nat, i3: nat :: ObservedPulse(state, timeout, levels, clock, i1, i2, i3, pulseStart, pulseEnd)
  {
    var x1 := PollPhase(AwaitIdle, state, timeout, levels, clock, 0, 2, clock[1], clock[0]);
    assert x1.Left?;
    PollPhaseLeftIff(AwaitIdle, state, timeout, levels, clock, 0, 2, clock[1], clock[0], x1.nextLevel, x1.nextClock);
    var i1 := x1.nextLevel;
    var x2 := PollPhase(AwaitPulse, state, timeout, levels, clock, i1, i1 + 2, clock[i1 + 1], clock[0]);
    assert x2.Left?;
    PollPhaseLeftIff(AwaitPulse, state, timeout, levels, clock, i1, i1 + 2, clock[i1 + 1], clock[0], x2.nextLevel, x2.nextClock);
    var i2 := x2.nextLevel;
    var x3 := PollPhase(AwaitPulseEnd, state, timeout, levels, clock, i2, i2 + 2, clock[i2 + 1], clock[0]);
    assert x3.Left?;
    PollPhaseLeftIff(AwaitPulseEnd, state, timeout, levels, clock, i2, i2 + 2, clock[i2 + 1], clock[0], x3.nextLevel, x3.nextClock);
    assert ObservedPulse(state, timeout, levels, clock, i1, i2, x3.nextLevel, pulseStart, pulseEnd);
  }

  /** A pulse observed in the streams is measured. */
  lemma ObservedPulseIsMeasured(state: UInt8, timeout: ULong, levels: seq<PinLevel>, clock: seq<ULong>,
                                i1: nat, i2: nat, i3: nat, pulseStart: ULong, pulseEnd: ULong)
    requires ObservedPulse(state, timeout, levels, clock, i1, i2, i3, pulseStart, pulseEnd)
    ensures Measure(state, timeout, levels, clock) == Measured(pulseStart, pulseEnd)
  {
    PollPhaseLeftIff(AwaitIdle, state, timeout, levels, clock, 0, 2, clock[1], clock[0], i1, i1 + 1);
    PollPhaseLeftIff(AwaitPulse, state, timeout, levels, clock, i1, i1 + 2, clock[i1 + 1], clock[0], i2, i2 + 1);
    PollPhaseLeftIff(AwaitPulseEnd, state, timeout, levels, clock, i2, i2 + 2, clock[i2 + 1], clock[0], i3, i3 + 1);
  }
}
