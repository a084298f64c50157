/**
 * The pure arithmetic of the slider puzzle: the tolerance table, the challenge
 * generator's range, the pointer-to-percentage clamp, the percentage-to-offset
 * mapping, the snap percentage and the integer read-back of the piece offset.
 * Pixel and percentage values are JavaScript numbers, modelled here as exact reals.
 */
module Slider {
  import opened Wrappers

  // Dimensions the widget hard-codes (pixels).
  const ContainerWidth: int := 400
  const ContainerHeight: int := 300
  const PieceWidth: int := 80
  const PieceHeight: int := 80
  // Inset that keeps a generated target away from both edges.
  const Margin: int := 20
  // Width of the range the target is drawn from: 400 - 80 - 40 = 280.
  const TargetSpan: int := ContainerWidth - PieceWidth - 2 * Margin
  // Target assumed by a verification that finds no challenge.
  const DefaultTargetX: int := 150
  // Offset range the snap computation assumes: 400 - 80 = 320.
  const SnapTravel: int := ContainerWidth - PieceWidth

  /** The puzzle hole's position (correctPosition). */
  datatype Challenge = Challenge(x: int, y: int)

  /** A target the generator can produce. */
  predicate InBounds(c: Challenge)
  {
    Margin <= c.x < Margin + TargetSpan && c.y == (ContainerHeight - PieceHeight) / 2
  }

  /** Tolerance in pixels for a difficulty name; an unknown name gets the medium value. */
  function Tolerance(difficulty: string): (t: nat)
    ensures t == 8 || t == 15 || t == 25
    ensures t == 25 <==> difficulty == "easy"
    ensures t == 8 <==> difficulty == "hard"
  {
    if difficulty == "easy" then 25
    else if difficulty == "medium" then 15
    else if difficulty == "hard" then 8
    else 15
  }

  /**
   * The challenge drawn for a random number r from [0, 1): the hole's x is
   * floor(r * 280) + 20 and its y is the vertical centre (300 - 80) / 2.
   */
  function GenerateChallenge(r: real): (c: Challenge)
    requires 0.0 <= r < 1.0
    ensures InBounds(c)
    ensures 20 <= c.x <= 299 && c.y == 110
  {
    var scaled := r * TargetSpan as real;
    assert scaled < TargetSpan as real;
    Challenge(scaled.Floor + Margin, (ContainerHeight - PieceHeight) / 2)
  }

  /** Math.max(lo, Math.min(v, hi)). */
  function Clamp(v: real, lo: real, hi: real): (r: real)
    requires lo <= hi
    ensures lo <= r <= hi
    ensures lo <= v <= hi ==> r == v
    ensures v < lo ==> r == lo
    ensures hi < v ==> r == hi
  {
    if v < lo then lo else if hi < v then hi else v
  }

  /**
   * Slider percentage for a pointer at clientX over a track starting at
   * trackLeft with the given width: the pointer's distance into the track,
   * clamped to the track, as a percentage of the track's width.
   */
  function SliderPercentage(clientX: real, trackLeft: real, trackWidth: real): (p: real)
    requires trackWidth > 0.0
    ensures 0.0 <= p <= 100.0
    ensures clientX <= trackLeft ==> p == 0.0
    ensures trackLeft + trackWidth <= clientX ==> p == 100.0
    ensures trackLeft <= clientX <= trackLeft + trackWidth ==> p * trackWidth == (clientX - trackLeft) * 100.0
  {
    var newX := Clamp(clientX - trackLeft, 0.0, trackWidth);
    PercentageBounds(newX, trackWidth);
    (newX / trackWidth) * 100.0
  }

  lemma PercentageBounds(newX: real, width: real)
    requires 0.0 <= newX <= width && width > 0.0
    ensures 0.0 <= (newX / width) * 100.0 <= 100.0
    ensures (newX / width) * 100.0 * width == newX * 100.0
  {
    assert newX / width <= 1.0;
  }

  /** A pointer further right never gives a smaller percentage. */
  lemma {:induction false} SliderPercentageMonotone(x1: real, x2: real, trackLeft: real, trackWidth: real)
    requires trackWidth > 0.0 && x1 <= x2
    ensures SliderPercentage(x1, trackLeft, trackWidth) <= SliderPercentage(x2, trackLeft, trackWidth)
  {
    var n1 := Clamp(x1 - trackLeft, 0.0, trackWidth);
    var n2 := Clamp(x2 - trackLeft, 0.0, trackWidth);
    assert n1 <= n2;
    DivMonotone(n1, n2, trackWidth);
  }

  lemma DivMonotone(a: real, b: real, w: real)
    requires a <= b && w > 0.0
    ensures (a / w) * 100.0 <= (b / w) * 100.0
  {
    assert a / w <= b / w;
  }

  /** Horizontal piece offset for a slider percentage: percentage / 100 of the free width maxX. */
  function PieceOffset(percentage: real, maxX: real): (x: real)
    ensures 0.0 <= percentage <= 100.0 && 0.0 <= maxX ==> 0.0 <= x <= maxX
    ensures percentage == 0.0 ==> x == 0.0
    ensures percentage == 100.0 ==> x == maxX
  {
    OffsetBounds(percentage, maxX);
    (percentage / 100.0) * maxX
  }

  lemma OffsetBounds(percentage: real, maxX: real)
    ensures 0.0 <= percentage <= 100.0 && 0.0 <= maxX ==> 0.0 <= (percentage / 100.0) * maxX <= maxX
  {
    if 0.0 <= percentage <= 100.0 && 0.0 <= maxX {
      var f := percentage / 100.0;
      assert 0.0 <= f <= 1.0;
      assert f * maxX <= 1.0 * maxX;
    }
  }

  /** The slider percentage the widget snaps to for a target x: x / (400 - 80) * 100. */
  function SnapPercentage(targetX: int): (p: real)
    ensures 0 <= targetX <= SnapTravel ==> 0.0 <= p <= 100.0
  {
    (targetX as real / SnapTravel as real) * 100.0
  }

  /** The snap puts the piece at targetX * maxX / 320, which is targetX exactly when maxX is 320. */
  lemma {:induction false} SnapLandsOnTarget(targetX: int, maxX: real)
    ensures PieceOffset(SnapPercentage(targetX), maxX) == targetX as real * maxX / SnapTravel as real
    ensures maxX == SnapTravel as real ==> PieceOffset(SnapPercentage(targetX), maxX) == targetX as real
  {
    var t := targetX as real;
    assert SnapPercentage(targetX) / 100.0 == t / 320.0;
  }

  /** parseInt of a decimal "px" string: the real truncated toward zero. */
  function Trunc(v: real): (n: int)
    ensures 0.0 <= v ==> 0 <= n && n as real <= v < n as real + 1.0
    ensures v < 0.0 ==> n <= 0 && n as real - 1.0 < v <= n as real
  {
    if 0.0 <= v then v.Floor else -((-v).Floor)
  }

  /** Reading back an integral offset gives that integer. */
  lemma TruncOfInteger(n: int)
    ensures Trunc(n as real) == n
  {
  }

  /**
   * The target a verification compares against: the challenge's x, or 150
   * when there is no challenge (or its x is the falsy 0).
   */
  function TargetX(correct: Option<Challenge>): (x: int)
    ensures correct.Some? && correct.value.x != 0 ==> x == correct.value.x
    ensures correct.None? ==> x == DefaultTargetX
    ensures correct.Some? && correct.value.x == 0 ==> x == DefaultTargetX
    ensures correct.Some? && InBounds(correct.value) ==> x == correct.value.x
  {
    match correct
    case None => DefaultTargetX
    case Some(c) => if c.x == 0 then DefaultTargetX else c.x
  }

  /** The tolerance test: the truncated offset is within tolerance pixels of the target. */
  predicate WithinTolerance(pieceLeft: real, targetX: int, tolerance: nat)
  {
    var delta := Trunc(pieceLeft) - targetX;
    -(tolerance as int) <= delta <= tolerance as int
  }

  /** The test is exactly |trunc(offset) - target| <= tolerance, and more tolerance accepts more. */
  lemma {:induction false} WithinToleranceMeaning(pieceLeft: real, targetX: int, t1: nat, t2: nat)
    ensures WithinTolerance(pieceLeft, targetX, t1) <==> Abs(Trunc(pieceLeft) - targetX) <= t1
    ensures t1 <= t2 && WithinTolerance(pieceLeft, targetX, t1) ==> WithinTolerance(pieceLeft, targetX, t2)
  {
  }

  function Abs(n: int): (a: nat)
    ensures a == n || a == -n
  {
    if n < 0 then -n else n
  }

  /** Tolerance strictly decreases from easy to medium to hard; every other name behaves as medium. */
  lemma ToleranceOrdering(other: string)
    requires other != "easy" && other != "medium" && other != "hard"
    ensures Tolerance("easy") == 25 && Tolerance("medium") == 15 && Tolerance("hard") == 8
    ensures Tolerance("easy") > Tolerance("medium") > Tolerance("hard")
    ensures Tolerance(other) == Tolerance("medium")
  {
  }

  /** Every x in [20, 299] is the target for some random number. */
  lemma {:induction false} GenerateChallengeCovers(x: int)
    requires Margin <= x < Margin + TargetSpan
    ensures 0.0 <= (x - Margin) as real / TargetSpan as real < 1.0
    ensures GenerateChallenge((x - Margin) as real / TargetSpan as real) == Challenge(x, 110)
  {
    var r := (x - Margin) as real / TargetSpan as real;
    assert r * TargetSpan as real == (x - Margin) as real;
  }

  /**
   * A piece snapped to a target with the 320-pixel free width passes the
   * tolerance test at any tolerance: an undisturbed auto-verify succeeds.
   */
  lemma {:induction false} SnappedPiecePasses(targetX: int, tolerance: nat)
    ensures WithinTolerance(PieceOffset(SnapPercentage(targetX), SnapTravel as real), targetX, tolerance)
  {
    SnapLandsOnTarget(targetX, SnapTravel as real);
    TruncOfInteger(targetX);
  }

  /** A piece placed at an integral target passes the tolerance test for that target. */
  lemma {:induction false} PlacedPiecePasses(targetX: int, tolerance: nat)
    ensures WithinTolerance(targetX as real, targetX, tolerance)
  {
    TruncOfInteger(targetX);
  }

  /** Verification scenarios: target 150 with candidate 160 passes on medium and fails on hard. */
  lemma ToleranceScenarios()
    ensures WithinTolerance(160.0, 150, Tolerance("medium"))
    ensures !WithinTolerance(160.0, 150, Tolerance("hard"))
    ensures SliderPercentage(110.0, 0.0, 100.0) == 100.0
  {
    TruncOfInteger(160);
  }
}
