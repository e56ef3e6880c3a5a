/**
 * The conversion from a servo angle in degrees to a Pololu Maestro target,
 * as `Maestro::set_position` computes it before it issues the transfer.
 *
 * A Maestro target is a pulse width in quarter-microseconds. The centre
 * pulse is 1472 us, and 180 degrees of travel span 2400 - 544 = 1856 us, so
 * the unclamped target is 4 * (1472 + pos / 180 * 1856). The C++ code
 * converts that `double` to `int` (truncation toward zero) and clamps it to
 * [4 * 800, 4 * 2144] = [3200, 8576]. The target 0 is reserved for
 * switching a servo's pulses off.
 */
module Conversion {

  /** Centre pulse width, in microseconds. */
  const CentreMicros: int := 1472
  /** Pulse widths that the formula maps to -90 and +90 degrees, in microseconds. */
  const SpanLowMicros: int := 544
  const SpanHighMicros: int := 2400

  /** The clamping bounds, in quarter-microseconds. */
  const MinCommand: int := 4 * 800
  const MaxCommand: int := 4 * 2144

  /** The out-of-band target that stops a servo's pulses. */
  const DisabledCommand: int := 0

  /** The centre target, 4 * 1472. */
  const CentreCommand: int := 4 * CentreMicros

  /**
   * C++'s conversion of a floating-point value to `int`: the fractional
   * part is discarded, rounding toward zero (unlike `Floor` for negatives).
   */
  function Truncate(x: real): (n: int)
    ensures 0.0 <= x ==> 0 <= n && n as real <= x < n as real + 1.0
    ensures x < 0.0 ==> n <= 0 && n as real - 1.0 < x <= n as real
  {
    if x >= 0.0 then x.Floor else -((-x).Floor)
  }

  /**
   * The target before conversion and clamping, over exact reals: the
   * centre 5888 at angle 0, and 7424 quarter-microseconds per 180 degrees.
   */
  function Unclamped(pos: real): (u: real)
    ensures (u - CentreCommand as real) * 180.0 == pos * 7424.0
  {
    4.0 * (CentreMicros as real + (pos / 180.0) * ((SpanHighMicros - SpanLowMicros) as real))
  }

  /** The two clamps of set_position, applied in the source's order. */
  function Clamp(command: int): (c: int)
    ensures MinCommand <= c <= MaxCommand
    ensures MinCommand <= command <= MaxCommand ==> c == command
    ensures command < MinCommand ==> c == MinCommand
    ensures command > MaxCommand ==> c == MaxCommand
  {
    var raised := if command < MinCommand then MinCommand else command;
    if raised > MaxCommand then MaxCommand else raised
  }

  /** The target that set_position sends for the angle `pos`. */
  function PositionCommand(pos: real): (c: int)
    ensures MinCommand <= c <= MaxCommand
  {
    Clamp(Truncate(Unclamped(pos)))
  }

  /** Whether the conversion's unclamped value already lies within the bounds. */
  predicate WithinBounds(pos: real)
  {
    MinCommand <= Truncate(Unclamped(pos)) <= MaxCommand
  }

  /** Inside the bounds the clamps do nothing: the target is the truncated formula. */
  lemma CommandWithinBounds(pos: real)
    requires WithinBounds(pos)
    ensures PositionCommand(pos) == Truncate(Unclamped(pos))
    ensures Unclamped(pos) - 1.0 < PositionCommand(pos) as real <= Unclamped(pos)
  {
  }

  /** Outside the bounds the target sticks to the nearer bound. */
  lemma CommandOutsideBounds(pos: real)
    ensures Truncate(Unclamped(pos)) < MinCommand ==> PositionCommand(pos) == MinCommand
    ensures Truncate(Unclamped(pos)) > MaxCommand ==> PositionCommand(pos) == MaxCommand
  {
  }

  /** The angle 0 gives the centre pulse, 4 * 1472 = 5888. */
  lemma CentreAngle()
    ensures PositionCommand(0.0) == CentreCommand == 5888
  {
    assert Unclamped(0.0) == 5888.0;
  }

  /**
   * The angles the source documents, -60 to 60 degrees, are never clamped:
   * their unclamped targets lie within about 2475 of the centre, and the
   * bounds lie 2688 away.
   */
  lemma DocumentedRangeUnclamped(pos: real)
    requires -60.0 <= pos <= 60.0
    ensures WithinBounds(pos)
    ensures PositionCommand(pos) == Unclamped(pos).Floor
  {
    var u := Unclamped(pos);
    assert u == 5888.0 + pos * 7424.0 / 180.0;
    assert 3400.0 <= u <= 8376.0;
  }

  /** Truncation toward zero is monotone. */
  lemma TruncateMonotone(x: real, y: real)
    requires x <= y
    ensures Truncate(x) <= Truncate(y)
  {
  }

  /** A larger angle never gives a smaller target. */
  lemma PositionCommandMonotone(p: real, q: real)
    requires p <= q
    ensures PositionCommand(p) <= PositionCommand(q)
  {
    assert Unclamped(p) <= Unclamped(q);
    TruncateMonotone(Unclamped(p), Unclamped(q));
  }

  /**
   * The conversion is symmetric about the centre up to the truncation:
   * the targets for `pos` and `-pos` add up to twice the centre, 11776,
   * or to one less when the truncation drops a fraction on both sides.
   * This is what the right servo's mirrored sweep relies on.
   */
  lemma MirroredCommands(pos: real)
    ensures 2 * CentreCommand - 1 <= PositionCommand(pos) + PositionCommand(-pos) <= 2 * CentreCommand
  {
    var u, v := Unclamped(pos), Unclamped(-pos);
    assert u + v == 11776.0;
    var a, b := Truncate(u), Truncate(v);
    if u < 0.0 {
      assert a <= 0 && b >= 11776;
    } else if v < 0.0 {
      assert b <= 0 && a >= 11776;
    } else {
      assert 11775 <= a + b <= 11776;
    }
  }

  /** set_position never produces the target that disables a servo. */
  lemma PositionNeverDisables(pos: real)
    ensures PositionCommand(pos) != DisabledCommand
  {
  }
}
