/**
 * The two fixture types: a butterfly of two 8-LED strips and a flower of one
 * center LED and four petal LEDs. A point is represented by the index LX gives
 * it, i.e. its position in the model's point list; a fixture is told the index
 * of the first point it creates and numbers the rest in creation order.
 */
module Fixtures {
  import opened Common

  const StripLength := 8
  const ButterflyPointCount := 16
  const PetalCount := 4
  const FlowerPointCount := 5

  /** s read back to front. */
  function Reversed(s: seq<int>): seq<int>
  {
    if s == [] then [] else Reversed(s[1..]) + [s[0]]
  }

  /** Row-major order over two strips of equal length: left[0], right[0], left[1], right[1], ... */
  function ByRow(l: seq<int>, r: seq<int>): seq<int>
    requires |l| == |r|
  {
    if l == [] then [] else [l[0], r[0]] + ByRow(l[1..], r[1..])
  }

  lemma {:induction false} ReversedLength(s: seq<int>)
    ensures |Reversed(s)| == |s|
  {
    if s != [] {
      ReversedLength(s[1..]);
    }
  }

  lemma {:induction false} ReversedAppend(a: seq<int>, b: seq<int>)
    ensures Reversed(a + b) == Reversed(b) + Reversed(a)
  {
    if a == [] {
      assert a + b == b;
    } else {
      assert (a + b)[1..] == a[1..] + b;
      ReversedAppend(a[1..], b);
    }
  }

  lemma {:induction false} ReversedInvolution(s: seq<int>)
    ensures Reversed(Reversed(s)) == s
  {
    if s != [] {
      ReversedInvolution(s[1..]);
      ReversedAppend(Reversed(s[1..]), [s[0]]);
      assert Reversed([s[0]]) == [s[0]];
      assert s == [s[0]] + s[1..];
    }
  }

  lemma {:induction false} ReversedPermutation(s: seq<int>)
    ensures multiset(Reversed(s)) == multiset(s)
  {
    if s != [] {
      ReversedPermutation(s[1..]);
      assert s == [s[0]] + s[1..];
    }
  }

  /** The counter-clockwise order right ++ reverse(left) is the clockwise order left ++ reverse(right) read backwards. */
  lemma CounterClockwiseIsReversedClockwise(l: seq<int>, r: seq<int>)
    ensures r + Reversed(l) == Reversed(l + Reversed(r))
  {
    ReversedAppend(l, Reversed(r));
    ReversedInvolution(r);
  }

  lemma {:induction false} ByRowAt(l: seq<int>, r: seq<int>, i: nat)
    requires |l| == |r| && i < |l|
    ensures |ByRow(l, r)| == 2 * |l|
    ensures ByRow(l, r)[2 * i] == l[i] && ByRow(l, r)[2 * i + 1] == r[i]
  {
    ByRowLength(l, r);
    if i > 0 {
      ByRowAt(l[1..], r[1..], i - 1);
    }
  }

  lemma {:induction false} ByRowLength(l: seq<int>, r: seq<int>)
    requires |l| == |r|
    ensures |ByRow(l, r)| == 2 * |l|
  {
    if l != [] {
      ByRowLength(l[1..], r[1..]);
    }
  }

  /** Adding one more row to both strips adds its two points at the end of the row order. */
  lemma {:induction false} ByRowSnoc(l: seq<int>, r: seq<int>, x: int, y: int)
    requires |l| == |r|
    ensures ByRow(l + [x], r + [y]) == ByRow(l, r) + [x, y]
  {
    if l != [] {
      assert (l + [x])[1..] == l[1..] + [x];
      assert (r + [y])[1..] == r[1..] + [y];
      ByRowSnoc(l[1..], r[1..], x, y);
    }
  }

  lemma {:induction false} ByRowPermutation(l: seq<int>, r: seq<int>)
    requires |l| == |r|
    ensures multiset(ByRow(l, r)) == multiset(l + r)
  {
    if l != [] {
      ByRowPermutation(l[1..], r[1..]);
      assert l == [l[0]] + l[1..];
      assert r == [r[0]] + r[1..];
    }
  }

  /** A 16-LED butterfly (LUButterfly). */
  class Butterfly {
    /** Position of the butterfly on its strand. */
    const strandIndex: int
    /** Position of the butterfly on its whole run. */
    const runIndex: int
    /** Where the butterfly hangs: the curve parameter its position was computed from. */
    const placement: CurveParam
    /** Index of the first point this butterfly creates. */
    const firstPoint: int

    var left: seq<int>
    var right: seq<int>
    var allPoints: seq<int>
    var pointsClockwise: seq<int>
    var pointsCounterClockwise: seq<int>
    var pointsByRow: seq<int>

    /** The layout buildPoints produces: the left strip's eight points, then the right strip's, then the four orders over them. */
    ghost predicate Valid()
      reads this
    {
      && left == Range(firstPoint, StripLength)
      && right == Range(firstPoint + StripLength, StripLength)
      && pointsClockwise == left + Reversed(right)
      && pointsCounterClockwise == right + Reversed(left)
      && pointsByRow == ByRow(left, right)
      && allPoints == left + right
    }

    constructor (strandIndex: int, runIndex: int, placement: CurveParam, firstPoint: int)
      ensures this.strandIndex == strandIndex && this.runIndex == runIndex
      ensures this.placement == placement && this.firstPoint == firstPoint
      ensures Valid()
      ensures allPoints == Range(firstPoint, ButterflyPointCount)
    {
      this.strandIndex := strandIndex;
      this.runIndex := runIndex;
      this.placement := placement;
      this.firstPoint := firstPoint;
      new;
      BuildPoints();
    }

    /** Replaces every list with a fresh one, so calling it again rebuilds each list instead of accumulating points. */
    method BuildPoints()
      modifies this
      ensures Valid()
      ensures allPoints == Range(firstPoint, ButterflyPointCount)
    {
      allPoints := [];
      left := BuildStrip(firstPoint);
      right := BuildStrip(firstPoint + StripLength);
      pointsClockwise := AppendReversed(left, right);
      pointsCounterClockwise := AppendReversed(right, left);
      pointsByRow := InterleaveRows(left, right);
      allPoints := allPoints + left;
      allPoints := allPoints + right;
      RangeAppend(firstPoint, StripLength, StripLength);
    }
  }

  /** One strip of a butterfly: eight new points, numbered in creation order from `first`. */
  method BuildStrip(first: int) returns (strip: seq<int>)
    ensures strip == Range(first, StripLength)
  {
    strip := [];
    var i := 0;
    while i < StripLength
      invariant 0 <= i <= StripLength
      invariant strip == Range(first, i)
    {
      strip := strip + [first + i];
      i := i + 1;
    }
  }

  /** The reverse-index loop of buildPoints: appends s[|s| - 1], ..., s[0] to acc. */
  method AppendReversed(acc: seq<int>, s: seq<int>) returns (out: seq<int>)
    ensures out == acc + Reversed(s)
  {
    out := acc;
    var i := |s| - 1;
    while i >= 0
      invariant -1 <= i < |s|
      invariant out == acc + Reversed(s[i + 1..])
    {
      assert s[i..][1..] == s[i + 1..];
      out := out + [s[i]];
      i := i - 1;
    }
    assert s[0..] == s;
  }

  /** The row loop of buildPoints: left[i] then right[i], for every row i. */
  method InterleaveRows(l: seq<int>, r: seq<int>) returns (out: seq<int>)
    requires |l| == |r|
    ensures out == ByRow(l, r)
  {
    out := [];
    var i := 0;
    while i < |l|
      invariant 0 <= i <= |l|
      invariant out == ByRow(l[..i], r[..i])
    {
      assert l[..i + 1] == l[..i] + [l[i]] && r[..i + 1] == r[..i] + [r[i]];
      ByRowSnoc(l[..i], r[..i], l[i], r[i]);
      out := out + [l[i], r[i]];
      i := i + 1;
    }
    assert l[..i] == l && r[..i] == r;
  }

  /**
   * What a butterfly's layout promises: sixteen distinct points; the clockwise,
   * counter-clockwise and row orders are each a rearrangement of them (none
   * dropped, none repeated); counter-clockwise is clockwise reversed; the row
   * order alternates left and right strip.
   */
  lemma ButterflyOrderings(b: Butterfly)
    requires b.Valid()
    ensures |b.allPoints| == ButterflyPointCount && NoDuplicates(b.allPoints)
    ensures multiset(b.pointsClockwise) == multiset(b.allPoints)
    ensures multiset(b.pointsCounterClockwise) == multiset(b.allPoints)
    ensures multiset(b.pointsByRow) == multiset(b.allPoints)
    ensures b.pointsCounterClockwise == Reversed(b.pointsClockwise)
    ensures |b.pointsByRow| == ButterflyPointCount
    ensures forall i :: 0 <= i < StripLength ==> b.pointsByRow[2 * i] == b.left[i] && b.pointsByRow[2 * i + 1] == b.right[i]
  {
    ByRowLength(b.left, b.right);
    RangeAppend(b.firstPoint, StripLength, StripLength);
    RangeNoDuplicates(b.firstPoint, ButterflyPointCount);
    ReversedPermutation(b.right);
    ReversedPermutation(b.left);
    ByRowPermutation(b.left, b.right);
    CounterClockwiseIsReversedClockwise(b.left, b.right);
    forall i | 0 <= i < StripLength
      ensures b.pointsByRow[2 * i] == b.left[i] && b.pointsByRow[2 * i + 1] == b.right[i]
    {
      ByRowAt(b.left, b.right, i);
    }
  }

  /** The indices lo + n - 1, lo + n - 2, ..., lo: a strip of n points walked from its last LED back to its first. */
  function Countdown(lo: int, n: nat): seq<int>
  {
    seq(n, k requires 0 <= k < n => lo + n - 1 - k)
  }

  /** A strip of consecutively created points, read backwards, counts down from its last point. */
  lemma {:induction false} ReversedRange(lo: int, n: nat)
    ensures Reversed(Range(lo, n)) == Countdown(lo, n)
    decreases n
  {
    if n > 0 {
      assert Range(lo, n)[1..] == Range(lo + 1, n - 1);
      ReversedRange(lo + 1, n - 1);
      assert Countdown(lo + 1, n - 1) + [lo] == Countdown(lo, n);
    }
  }

  /**
   * The two rings around a butterfly: clockwise goes up the left strip and
   * back down the right one, counter-clockwise up the right strip and back
   * down the left one, so each ring's second half is the other strip from its
   * last LED to its first.
   */
  lemma ButterflyRings(b: Butterfly)
    requires b.Valid()
    ensures |b.pointsClockwise| == ButterflyPointCount && |b.pointsCounterClockwise| == ButterflyPointCount
    ensures forall k :: 0 <= k < StripLength ==> b.pointsClockwise[k] == b.left[k]
    ensures forall k :: StripLength <= k < ButterflyPointCount ==>
      b.pointsClockwise[k] == b.right[ButterflyPointCount - 1 - k]
    ensures forall k :: 0 <= k < StripLength ==> b.pointsCounterClockwise[k] == b.right[k]
    ensures forall k :: StripLength <= k < ButterflyPointCount ==>
      b.pointsCounterClockwise[k] == b.left[ButterflyPointCount - 1 - k]
  {
    ReversedRange(b.firstPoint, StripLength);
    ReversedRange(b.firstPoint + StripLength, StripLength);
  }

  /**
   * A butterfly's hanging position: curve `curve` of its run evaluated at t = num / den
   * (a float division in the source; den may be zero, which the source does not guard).
   */
  datatype CurveParam = CurveParam(curve: int, num: int, den: int)

  /** A flower (LUFlower): one center LED and four petal LEDs, of which only center and first petal are addressable. */
  class Flower {
    const strandIndex: int
    const runIndex: int
    /** Index of the first point this flower creates. */
    const firstPoint: int

    var center: int
    var petals: array<int>
    var mappablePoints: seq<int>
    var allPoints: seq<int>

    /** The layout buildPoints produces. */
    ghost predicate Valid()
      reads this, petals
    {
      && petals.Length == PetalCount
      && center == firstPoint
      && petals[..] == Range(firstPoint + 1, PetalCount)
      && mappablePoints == [center, petals[0]]
      && allPoints == mappablePoints + [petals[1], petals[2], petals[3]]
    }

    constructor (strandIndex: int, runIndex: int, firstPoint: int)
      ensures this.strandIndex == strandIndex && this.runIndex == runIndex && this.firstPoint == firstPoint
      ensures Valid() && fresh(petals)
      ensures allPoints == Range(firstPoint, FlowerPointCount)
    {
      this.strandIndex := strandIndex;
      this.runIndex := runIndex;
      this.firstPoint := firstPoint;
      petals := new int[0];
      new;
      BuildPoints();
    }

    method BuildPoints()
      modifies this
      ensures Valid() && fresh(petals)
      ensures allPoints == Range(firstPoint, FlowerPointCount)
    {
      var p := firstPoint;
      center := p;
      var ps := new int[PetalCount];
      ps[0] := p + 1;
      ps[1] := p + 2;
      ps[2] := p + 3;
      ps[3] := p + 4;
      SmallRanges(p);
      SmallRanges(p + 1);
      assert ps[..] == [p + 1, p + 2, p + 3, p + 4];
      petals := ps;
      mappablePoints := [];
      mappablePoints := mappablePoints + [center];
      mappablePoints := mappablePoints + [petals[0]];
      allPoints := [];
      allPoints := allPoints + mappablePoints;
      allPoints := allPoints + [petals[1]];
      allPoints := allPoints + [petals[2]];
      allPoints := allPoints + [petals[3]];
      assert allPoints == [p, p + 1, p + 2, p + 3, p + 4];
    }
  }

  /**
   * What a flower's layout promises: five distinct points, the two addressable
   * ones are the first two of all five, and each of the four petals occurs
   * exactly once.
   */
  lemma FlowerLayout(f: Flower)
    requires f.Valid()
    ensures |f.allPoints| == FlowerPointCount && NoDuplicates(f.allPoints)
    ensures f.mappablePoints == f.allPoints[..2]
    ensures f.allPoints[0] == f.center
    ensures forall p :: 0 <= p < PetalCount ==> multiset(f.allPoints)[f.petals[p]] == 1
  {
    assert f.allPoints == Range(f.firstPoint, FlowerPointCount);
    RangeNoDuplicates(f.firstPoint, FlowerPointCount);
  }
}
