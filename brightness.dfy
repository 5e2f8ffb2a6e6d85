/**
 * The arithmetic of the backlight module, on exact reals: the integer
 * truncation the write path applies, the clamp of a scroll step, and the
 * round-half-up percentage the event handler derives.
 */
module Brightness {
  import opened BacklightTokens

  /** Raw units one scroll command moves the brightness by. */
  const StepSize: real := 50.0

  function Min(a: real, b: real): real { if a <= b then a else b }
  function Max(a: real, b: real): real { if a <= b then b else a }

  /**
   * C++'s `int(x)`: conversion toward zero, so the result never lies
   * farther from zero than `x` and is within one unit of it.
   */
  function Truncate(x: real): (r: int)
    ensures x >= 0.0 ==> r as real <= x < r as real + 1.0
    ensures x < 0.0 ==> r as real - 1.0 < x <= r as real
  {
    if x >= 0.0 then x.Floor else -((-x).Floor)
  }

  /** For the non-negative values the write path sees, truncation is the floor. */
  lemma TruncateNonNegativeIsFloor(x: real)
    requires x >= 0.0
    ensures Truncate(x) == x.Floor
  {
  }

  /** A whole-valued real truncates to itself. */
  lemma TruncateWhole(n: int)
    ensures Truncate(n as real) == n
  {
  }

  /** Signed step of a command: up by 50 or down by 50. */
  function Delta(c: Command): (d: real)
    ensures c == Increase ==> d > 0.0
    ensures c == Decrease ==> d < 0.0
    ensures d == StepSize || d == -StepSize
  {
    match c
    case Increase => StepSize
    case Decrease => -StepSize
  }

  /**
   * The clamp of the input handler: below zero becomes zero, otherwise
   * above the cached maximum becomes that maximum. With a non-negative
   * maximum the result is the nearest point of [0, maxVal].
   */
  function Clamp(cur: real, maxVal: real): (r: real)
    ensures maxVal >= 0.0 ==> 0.0 <= r <= maxVal
    ensures maxVal >= 0.0 ==> r == Min(Max(cur, 0.0), maxVal)
    ensures 0.0 <= cur <= maxVal ==> r == cur
    ensures maxVal < 0.0 ==> r == (if cur < 0.0 then 0.0 else maxVal)
  {
    if cur < 0.0 then 0.0
    else if cur > maxVal then maxVal
    else cur
  }

  /** The value a recognised command leaves in the brightness file. */
  function Stored(val: real, maxVal: real, c: Command): (r: real)
    ensures maxVal >= 0.0 ==> 0.0 <= r <= maxVal
    ensures r == r.Floor as real
  {
    Truncate(Clamp(val + Delta(c), maxVal)) as real
  }

  /** Increase stores the floor of min(val + 50, maxVal). */
  lemma IncreaseStoresMin(val: real, maxVal: real)
    requires maxVal >= 0.0 && val + StepSize >= 0.0
    ensures Stored(val, maxVal, Increase) == Min(val + StepSize, maxVal).Floor as real
  {
    TruncateNonNegativeIsFloor(Clamp(val + StepSize, maxVal));
  }

  /** Decrease stores the floor of max(val - 50, 0), capped by the maximum. */
  lemma DecreaseStoresMax(val: real, maxVal: real)
    requires 0.0 <= val <= maxVal
    ensures Stored(val, maxVal, Decrease) == Max(val - StepSize, 0.0).Floor as real
  {
    TruncateNonNegativeIsFloor(Clamp(val - StepSize, maxVal));
  }

  /** Increasing at a whole-valued maximum leaves the value where it is. */
  lemma IncreaseAtMaximumIsFixed(maxVal: int)
    requires maxVal >= 0
    ensures Stored(maxVal as real, maxVal as real, Increase) == maxVal as real
  {
    TruncateWhole(maxVal);
  }

  /** Decreasing at zero leaves zero, whatever the maximum. */
  lemma DecreaseAtZeroIsFixed(maxVal: real)
    ensures Stored(0.0, maxVal, Decrease) == 0.0
  {
    TruncateWhole(0);
  }

  /** The brightness value after a series of commands, applied in order. */
  function Run(val: real, maxVal: real, cmds: seq<Command>): real
    decreases |cmds|
  {
    if cmds == [] then val else Run(Stored(val, maxVal, cmds[0]), maxVal, cmds[1..])
  }

  /** However many commands are issued in a row, the value stays in [0, maxVal]. */
  lemma {:induction false} RunStaysInRange(val: real, maxVal: real, cmds: seq<Command>)
    requires maxVal >= 0.0 && cmds != []
    ensures 0.0 <= Run(val, maxVal, cmds) <= maxVal
    decreases |cmds|
  {
    if |cmds| > 1 {
      RunStaysInRange(Stored(val, maxVal, cmds[0]), maxVal, cmds[1..]);
    }
  }

  /** A series of commands that starts inside [0, maxVal] never leaves it. */
  lemma {:induction false} RunPreservesRange(val: real, maxVal: real, cmds: seq<Command>)
    requires 0.0 <= val <= maxVal
    ensures 0.0 <= Run(val, maxVal, cmds) <= maxVal
    decreases |cmds|
  {
    if cmds != [] {
      RunStaysInRange(val, maxVal, cmds);
    }
  }

  function Repeat(c: Command, n: nat): (s: seq<Command>)
    ensures |s| == n && forall i :: 0 <= i < n ==> s[i] == c
  {
    if n == 0 then [] else [c] + Repeat(c, n - 1)
  }

  /** n increases from a whole value inside the range reach min(val + 50 n, maxVal). */
  lemma {:induction false} RepeatedIncrease(val: int, maxVal: int, n: nat)
    requires 0 <= val <= maxVal
    ensures Run(val as real, maxVal as real, Repeat(Increase, n))
         == (if val + 50 * n <= maxVal then val + 50 * n else maxVal) as real
    decreases n
  {
    if n > 0 {
      var next := if val + 50 <= maxVal then val + 50 else maxVal;
      TruncateWhole(next);
      assert Stored(val as real, maxVal as real, Increase) == next as real;
      assert Repeat(Increase, n)[1..] == Repeat(Increase, n - 1);
      RepeatedIncrease(next, maxVal, n - 1);
    }
  }

  /** n decreases from a whole value inside the range reach max(val - 50 n, 0). */
  lemma {:induction false} RepeatedDecrease(val: int, maxVal: int, n: nat)
    requires 0 <= val <= maxVal
    ensures Run(val as real, maxVal as real, Repeat(Decrease, n))
         == (if val - 50 * n >= 0 then val - 50 * n else 0) as real
    decreases n
  {
    if n > 0 {
      var next := if val - 50 >= 0 then val - 50 else 0;
      TruncateWhole(next);
      assert Stored(val as real, maxVal as real, Decrease) == next as real;
      assert Repeat(Decrease, n)[1..] == Repeat(Decrease, n - 1);
      RepeatedDecrease(next, maxVal, n - 1);
    }
  }

  /** Thirty increases from 0 with maximum 100 end at exactly 100. */
  lemma ThirtyIncreasesSaturate()
    ensures Run(0.0, 100.0, Repeat(Increase, 30)) == 100.0
  {
    RepeatedIncrease(0, 100, 30);
  }

  /**
   * The event handler's percentage: `int(val / max * 100 + 0.5)`, a
   * round-half-up of the ratio, with no clamp to 100.
   */
  function Percentage(val: real, maxFile: real): (p: int)
    requires maxFile > 0.0
    ensures val >= 0.0 ==> p >= 0
    ensures val >= 0.0 ==> p as real - 0.5 <= val / maxFile * 100.0 < p as real + 0.5
  {
    Truncate(val / maxFile * 100.0 + 0.5)
  }

  /** For a non-negative value the percentage is floor(val / max * 100 + 1/2). */
  lemma PercentageIsRoundHalfUp(val: real, maxFile: real)
    requires val >= 0.0 && maxFile > 0.0
    ensures Percentage(val, maxFile) == (val / maxFile * 100.0 + 0.5).Floor
  {
    TruncateNonNegativeIsFloor(val / maxFile * 100.0 + 0.5);
  }

  /** A value inside [0, max] gives a percentage inside [0, 100]. */
  lemma PercentageInRange(val: real, maxFile: real)
    requires maxFile > 0.0 && 0.0 <= val <= maxFile
    ensures 0 <= Percentage(val, maxFile) <= 100
  {
    assert val / maxFile <= 1.0;
  }

  /** A larger value never gives a smaller percentage. */
  lemma PercentageMonotone(v: real, w: real, maxFile: real)
    requires maxFile > 0.0 && 0.0 <= v <= w
    ensures Percentage(v, maxFile) <= Percentage(w, maxFile)
  {
    assert v / maxFile <= w / maxFile;
    PercentageIsRoundHalfUp(v, maxFile);
    PercentageIsRoundHalfUp(w, maxFile);
  }

  /** The two ends of the range give 0 and 100. */
  lemma PercentageEnds(maxFile: real)
    requires maxFile > 0.0
    ensures Percentage(0.0, maxFile) == 0
    ensures Percentage(maxFile, maxFile) == 100
  {
    TruncateWhole(0);
    assert maxFile / maxFile == 1.0;
    assert Truncate(100.5) == 100;
  }

  /** Half the maximum gives 50: a value of 100 against a maximum of 200. */
  lemma PercentageHalf()
    ensures Percentage(100.0, 200.0) == 50
  {
    assert 100.0 / 200.0 * 100.0 + 0.5 == 50.5;
  }

  /** Twice a positive number, divided by that number, is 2. */
  lemma TwiceOverItself(m: real)
    requires m > 0.0
    ensures 2.0 * m / m == 2.0
  {
  }

  /**
   * The percentage is not clamped: a value at or above the maximum gives at
   * least 100, and twice the maximum gives 200.
   */
  lemma PercentageNotClamped(val: real, maxFile: real)
    requires maxFile > 0.0 && val >= maxFile
    ensures Percentage(val, maxFile) >= 100
    ensures val == 2.0 * maxFile ==> Percentage(val, maxFile) == 200
  {
    assert val / maxFile >= 1.0;
    if val == 2.0 * maxFile {
      TwiceOverItself(maxFile);
    }
  }
}
