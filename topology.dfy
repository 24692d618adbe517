/**
 * Construction of the fixture topology (KaledoscopeModel): butterfly runs made
 * of strands made of butterflies, then one-strand flower runs.
 *
 * This module holds the values the construction produces (strands and runs)
 * and, for each constructor, a function stating what it produces from the
 * counters it starts from: the sizes of the process-wide lists and the number
 * of LED points created so far. Module KaledoscopeBuild performs the same
 * construction step by step on those lists and is proved to agree with these
 * functions; the lemmas here state what the construction guarantees.
 *
 * A point is the index it has in the model's point list; a fixture creates its
 * points consecutively, numbered from the count of points created before it.
 */
module Topology {
  import opened Common
  import opened Fixtures

  /** A butterfly run is shaped by exactly two curves (bezier1 and bezier2). */
  const CurvesPerRun := 2

  /** Number of iterations of `for (int i = 0; i < n; i++)`. */
  function Count(n: int): nat
  {
    if n < 0 then 0 else n
  }

  /** Two's-complement wrap-around of a Java `int` result. */
  function Wrap32(x: int): (r: int)
    ensures -0x8000_0000 <= r < 0x8000_0000
    ensures (r - x) % 0x1_0000_0000 == 0
  {
    (x + 0x8000_0000) % 0x1_0000_0000 - 0x8000_0000
  }

  /** Java's `/` on `int` by 2: the quotient is truncated toward zero. */
  function JavaHalf(x: int): (r: int)
    ensures x >= 0 ==> 0 <= 2 * r <= x < 2 * r + 2
    ensures x < 0 ==> 2 * r - 2 < x <= 2 * r <= 0
  {
    if x >= 0 then x / 2 else -((-x) / 2)
  }

  /**
   * Denominator of the curve parameter of every butterfly on a strand:
   * numButterflies * numStrandsPerRun / 2 in Java `int` arithmetic.
   */
  function CurveDenominator(numButterflies: int, numStrandsPerRun: int): int
  {
    JavaHalf(Wrap32(numButterflies * numStrandsPerRun))
  }

  datatype StrandType = ButterflyStrand | FlowerStrand
  datatype RunType = ButterflyRun | FlowerRun

  /** The failures of model construction. */
  datatype Error =
    | IllegalCapacity(capacity: int)      // new ArrayList<>(numRuns) with numRuns < 0
    | MissingStrandLength(strandId: int)  // allStrandLengths has no entry for the strand
    | MissingCurve(strandRunIndex: int)   // beziers.get(strandRunIndex) past the run's two curves

  /**
   * A strand: fixtures wired in series, and their points in wire order. The
   * fixtures are given by their positions in the model's allButterflies and
   * allFlowers lists, which hold the very same objects.
   */
  datatype Strand = Strand(strandId: int, strandRunIndex: int, strandType: StrandType,
                           butterflies: seq<int>, flowers: seq<int>, allPoints: seq<int>)

  /**
   * A run: the run's fixtures (positions, as in Strand) and points in order.
   * The source declares a list of the run's strands but never adds to it.
   */
  datatype Run = Run(runIndex: int, runType: RunType, strands: seq<Strand>,
                     butterflies: seq<int>, flowers: seq<int>, allPoints: seq<int>)

  /** What a butterfly is constructed with; these fields never change afterwards. */
  datatype ButterflyInfo = ButterflyInfo(strandIndex: int, runIndex: int, placement: CurveParam, firstPoint: int)

  /** What a flower is constructed with. */
  datatype FlowerInfo = FlowerInfo(strandIndex: int, runIndex: int, firstPoint: int)

  function ButterflyInfos(bs: seq<Butterfly>): seq<ButterflyInfo>
  {
    seq(|bs|, k requires 0 <= k < |bs| => ButterflyInfo(bs[k].strandIndex, bs[k].runIndex, bs[k].placement, bs[k].firstPoint))
  }

  function FlowerInfos(fs: seq<Flower>): seq<FlowerInfo>
  {
    seq(|fs|, k requires 0 <= k < |fs| => FlowerInfo(fs[k].strandIndex, fs[k].runIndex, fs[k].firstPoint))
  }

  lemma ButterflyInfosSnoc(bs: seq<Butterfly>, b: Butterfly)
    ensures ButterflyInfos(bs + [b]) == ButterflyInfos(bs) + [ButterflyInfo(b.strandIndex, b.runIndex, b.placement, b.firstPoint)]
  {
    var l, r := ButterflyInfos(bs + [b]), ButterflyInfos(bs) + [ButterflyInfo(b.strandIndex, b.runIndex, b.placement, b.firstPoint)];
    assert forall k :: 0 <= k < |l| ==> l[k] == r[k];
  }

  lemma FlowerInfosSnoc(fs: seq<Flower>, f: Flower)
    ensures FlowerInfos(fs + [f]) == FlowerInfos(fs) + [FlowerInfo(f.strandIndex, f.runIndex, f.firstPoint)]
  {
    var l, r := FlowerInfos(fs + [f]), FlowerInfos(fs) + [FlowerInfo(f.strandIndex, f.runIndex, f.firstPoint)];
    assert forall k :: 0 <= k < |l| ==> l[k] == r[k];
  }

  /** One more butterfly, numbered as the strand constructor numbers its i-th. */
  lemma ButterflyInfosStep(bs: seq<Butterfly>, b: Butterfly, before: seq<ButterflyInfo>, i: nat, curve: int, den: int,
                           prevRun: int, firstPoint: int)
    requires ButterflyInfos(bs) == before + NewButterflies(i, curve, den, prevRun, firstPoint)
    requires b.strandIndex == i && b.runIndex == i + prevRun && b.placement == CurveParam(curve, i, den)
    requires b.firstPoint == firstPoint + ButterflyPointCount * i
    ensures ButterflyInfos(bs + [b]) == before + NewButterflies(i + 1, curve, den, prevRun, firstPoint)
  {
    ButterflyInfosSnoc(bs, b);
  }

  /** One more flower, numbered as the strand constructor numbers its i-th. */
  lemma FlowerInfosStep(fs: seq<Flower>, f: Flower, before: seq<FlowerInfo>, i: nat, prevRun: int, firstPoint: int)
    requires FlowerInfos(fs) == before + NewFlowers(i, prevRun, firstPoint)
    requires f.strandIndex == i && f.runIndex == i + prevRun && f.firstPoint == firstPoint + FlowerPointCount * i
    ensures FlowerInfos(fs + [f]) == before + NewFlowers(i + 1, prevRun, firstPoint)
  {
    FlowerInfosSnoc(fs, f);
  }

  /** The petal arrays of the flowers fs. */
  function Petals(fs: seq<Flower>): set<array<int>>
    reads fs
  {
    set k | 0 <= k < |fs| :: fs[k].petals
  }

  /**
   * Every butterfly and flower has the layout its buildPoints produces, and its
   * point list is the range of points it created.
   */
  ghost predicate Built(bs: seq<Butterfly>, fs: seq<Flower>)
    reads bs, fs, Petals(fs)
  {
    && (forall k :: 0 <= k < |bs| ==> bs[k].Valid() && bs[k].allPoints == Range(bs[k].firstPoint, ButterflyPointCount))
    && (forall k :: 0 <= k < |fs| ==> fs[k].Valid() && fs[k].allPoints == Range(fs[k].firstPoint, FlowerPointCount))
  }

  /**
   * Where the next strand, butterfly, flower and point are numbered from: the
   * sizes of allStrands, allButterflies and allFlowers, and the points created.
   */
  datatype Next = Next(strand: int, butterfly: int, flower: int, point: int)

  /** Every strand ID in [lo, lo + n) has a configured length. */
  ghost predicate LengthsConfigured(lengths: map<int, int>, lo: int, n: int)
  {
    forall id :: lo <= id < lo + n ==> id in lengths
  }

  lemma LengthsConfiguredSplit(lengths: map<int, int>, lo: int, n: nat, m: nat)
    ensures LengthsConfigured(lengths, lo, n + m) <==> LengthsConfigured(lengths, lo, n) && LengthsConfigured(lengths, lo + n, m)
  {
  }

  // ---------------------------------------------------------------------------
  // Strands
  // ---------------------------------------------------------------------------

  /**
   * The butterflies i = 0 .. n-1 the butterfly Strand constructor creates on
   * curve `curve`, after `prevRun` butterflies of the run and from point `firstPoint`.
   */
  function NewButterflies(n: nat, curve: int, den: int, prevRun: int, firstPoint: int): (r: seq<ButterflyInfo>)
    ensures |r| == n
  {
    if n == 0 then []
    else
      NewButterflies(n - 1, curve, den, prevRun, firstPoint)
      + [ButterflyInfo(n - 1, prevRun + n - 1, CurveParam(curve, n - 1, den), firstPoint + ButterflyPointCount * (n - 1))]
  }

  /** The flowers i = 0 .. n-1 the flower Strand constructor creates. */
  function NewFlowers(n: nat, prevRun: int, firstPoint: int): (r: seq<FlowerInfo>)
    ensures |r| == n
  {
    if n == 0 then []
    else NewFlowers(n - 1, prevRun, firstPoint) + [FlowerInfo(n - 1, prevRun + n - 1, firstPoint + FlowerPointCount * (n - 1))]
  }

  /**
   * Butterfly i of a strand is the strand's i-th, the run's (prevRun + i)-th,
   * sits at curve parameter i / den, and owns the strand's i-th block of 16 points.
   */
  lemma {:induction false} NewButterfliesAt(n: nat, curve: int, den: int, prevRun: int, firstPoint: int, i: nat)
    requires i < n
    ensures NewButterflies(n, curve, den, prevRun, firstPoint)[i]
         == ButterflyInfo(i, prevRun + i, CurveParam(curve, i, den), firstPoint + ButterflyPointCount * i)
  {
    if i < n - 1 {
      NewButterfliesAt(n - 1, curve, den, prevRun, firstPoint, i);
    }
  }

  lemma {:induction false} NewFlowersAt(n: nat, prevRun: int, firstPoint: int, i: nat)
    requires i < n
    ensures NewFlowers(n, prevRun, firstPoint)[i] == FlowerInfo(i, prevRun + i, firstPoint + FlowerPointCount * i)
  {
    if i < n - 1 {
      NewFlowersAt(n - 1, prevRun, firstPoint, i);
    }
  }

  /**
   * The butterfly Strand constructor, started with the counters `c`: as many
   * butterflies as allStrandLengths configures for the strand, on curve
   * strandRunIndex of the run's two.
   */
  function ButterflyStrandSpec(strandId: int, strandRunIndex: int, c: Next, lengths: map<int, int>): Result<Strand, Error>
  {
    if strandId !in lengths then Failure(MissingStrandLength(strandId))
    else if !(0 <= strandRunIndex < CurvesPerRun) then Failure(MissingCurve(strandRunIndex))
    else
      var n := Count(lengths[strandId]);
      Success(Strand(strandId, strandRunIndex, ButterflyStrand, Range(c.butterfly, n), [], Range(c.point, ButterflyPointCount * n)))
  }

  /** The flower Strand constructor; it never sets strandRunIndex, which stays 0. */
  function FlowerStrandSpec(strandId: int, c: Next, lengths: map<int, int>): Result<Strand, Error>
  {
    if strandId !in lengths then Failure(MissingStrandLength(strandId))
    else
      var n := Count(lengths[strandId]);
      Success(Strand(strandId, 0, FlowerStrand, [], Range(c.flower, n), Range(c.point, FlowerPointCount * n)))
  }

  /**
   * A butterfly strand's points are its butterflies' point lists one after the
   * other: block i of 16 points is exactly the points butterfly i created.
   */
  lemma ButterflyStrandBlocks(strandId: int, strandRunIndex: int, c: Next, lengths: map<int, int>, den: int, prevRun: int)
    requires ButterflyStrandSpec(strandId, strandRunIndex, c, lengths).Success?
    ensures var s := ButterflyStrandSpec(strandId, strandRunIndex, c, lengths).value;
            var made := NewButterflies(|s.butterflies|, strandRunIndex, den, prevRun, c.point);
            && |s.allPoints| == ButterflyPointCount * |made|
            && forall i :: 0 <= i < |made| ==>
                 s.allPoints[ButterflyPointCount * i .. ButterflyPointCount * (i + 1)] == Range(made[i].firstPoint, ButterflyPointCount)
  {
    var s := ButterflyStrandSpec(strandId, strandRunIndex, c, lengths).value;
    var n := |s.butterflies|;
    forall i | 0 <= i < n
      ensures s.allPoints[ButterflyPointCount * i .. ButterflyPointCount * (i + 1)]
           == Range(NewButterflies(n, strandRunIndex, den, prevRun, c.point)[i].firstPoint, ButterflyPointCount)
    {
      NewButterfliesAt(n, strandRunIndex, den, prevRun, c.point, i);
      RangeSlice(c.point, ButterflyPointCount * n, ButterflyPointCount * i, ButterflyPointCount * (i + 1));
    }
  }

  /** A flower strand's points are its flowers' point lists one after the other. */
  lemma FlowerStrandBlocks(strandId: int, c: Next, lengths: map<int, int>, prevRun: int)
    requires FlowerStrandSpec(strandId, c, lengths).Success?
    ensures var s := FlowerStrandSpec(strandId, c, lengths).value;
            var made := NewFlowers(|s.flowers|, prevRun, c.point);
            && |s.allPoints| == FlowerPointCount * |made|
            && forall i :: 0 <= i < |made| ==>
                 s.allPoints[FlowerPointCount * i .. FlowerPointCount * (i + 1)] == Range(made[i].firstPoint, FlowerPointCount)
  {
    var s := FlowerStrandSpec(strandId, c, lengths).value;
    var n := |s.flowers|;
    forall i | 0 <= i < n
      ensures s.allPoints[FlowerPointCount * i .. FlowerPointCount * (i + 1)]
           == Range(NewFlowers(n, prevRun, c.point)[i].firstPoint, FlowerPointCount)
    {
      NewFlowersAt(n, prevRun, c.point, i);
      RangeSlice(c.point, FlowerPointCount * n, FlowerPointCount * i, FlowerPointCount * (i + 1));
    }
  }

  // ---------------------------------------------------------------------------
  // Runs
  // ---------------------------------------------------------------------------

  /**
   * A run under construction: the run itself, the strands it has created (in
   * the order they were appended to allStrands), the counters after them and
   * the fixtures they created (in the order they were appended to
   * allButterflies and allFlowers).
   */
  datatype RunBuild = RunBuild(run: Run, strands: seq<Strand>, next: Next,
                               butterflies: seq<ButterflyInfo>, flowers: seq<FlowerInfo>)

  function RunResult(b: Result<RunBuild, Error>): Result<Run, Error>
  {
    match b
    case Success(v) => Success(v.run)
    case Failure(e) => Failure(e)
  }

  /**
   * The butterfly Run constructor after its first j strands, started with the
   * counters c. Strand i takes the next global strand ID and curve i.
   */
  function ButterflyRunAfter(j: nat, runIndex: int, c: Next, butterfliesPerStrand: int, numStrandsPerRun: int,
                             lengths: map<int, int>): Result<RunBuild, Error>
  {
    if j == 0 then Success(RunBuild(Run(runIndex, ButterflyRun, [], [], [], []), [], c, [], []))
    else
      match ButterflyRunAfter(j - 1, runIndex, c, butterfliesPerStrand, numStrandsPerRun, lengths) {
        case Failure(e) => Failure(e)
        case Success(b) =>
          match ButterflyStrandSpec(b.next.strand, j - 1, b.next, lengths) {
            case Failure(e) => Failure(e)
            case Success(s) =>
              Success(AddButterflyStrand(b, s, j - 1, CurveDenominator(butterfliesPerStrand, numStrandsPerRun)))
          }
      }
  }

  /** The flower Run constructor after its first j strands. */
  function FlowerRunAfter(j: nat, runIndex: int, c: Next, lengths: map<int, int>): Result<RunBuild, Error>
  {
    if j == 0 then Success(RunBuild(Run(runIndex, FlowerRun, [], [], [], []), [], c, [], []))
    else
      match FlowerRunAfter(j - 1, runIndex, c, lengths) {
        case Failure(e) => Failure(e)
        case Success(b) =>
          match FlowerStrandSpec(b.next.strand, b.next, lengths) {
            case Failure(e) => Failure(e)
            case Success(s) =>
              Success(AddFlowerStrand(b, s))
          }
      }
  }

  /** One more butterfly strand appends what that strand builds from the counters so far. */
  lemma ButterflyRunAfterNext(j: nat, runIndex: int, c: Next, butterfliesPerStrand: int, numStrandsPerRun: int,
                              lengths: map<int, int>, b: RunBuild, s: Strand)
    requires ButterflyRunAfter(j, runIndex, c, butterfliesPerStrand, numStrandsPerRun, lengths) == Success(b)
    requires ButterflyStrandSpec(b.next.strand, j, b.next, lengths) == Success(s)
    ensures ButterflyRunAfter(j + 1, runIndex, c, butterfliesPerStrand, numStrandsPerRun, lengths)
         == Success(AddButterflyStrand(b, s, j, CurveDenominator(butterfliesPerStrand, numStrandsPerRun)))
  {
  }

  /** One more flower strand appends what that strand builds from the counters so far. */
  lemma FlowerRunAfterNext(j: nat, runIndex: int, c: Next, lengths: map<int, int>, b: RunBuild, s: Strand)
    requires FlowerRunAfter(j, runIndex, c, lengths) == Success(b)
    requires FlowerStrandSpec(b.next.strand, b.next, lengths) == Success(s)
    ensures FlowerRunAfter(j + 1, runIndex, c, lengths) == Success(AddFlowerStrand(b, s))
  {
  }

  function StrandsPoints(ss: seq<Strand>): seq<int>
  {
    if ss == [] then [] else ss[0].allPoints + StrandsPoints(ss[1..])
  }

  function StrandsButterflies(ss: seq<Strand>): seq<int>
  {
    if ss == [] then [] else ss[0].butterflies + StrandsButterflies(ss[1..])
  }

  function StrandsFlowers(ss: seq<Strand>): seq<int>
  {
    if ss == [] then [] else ss[0].flowers + StrandsFlowers(ss[1..])
  }

  function RunsPoints(rs: seq<Run>): seq<int>
  {
    if rs == [] then [] else rs[0].allPoints + RunsPoints(rs[1..])
  }

  lemma {:induction false} StrandsPointsSnoc(ss: seq<Strand>, x: Strand)
    ensures StrandsPoints(ss + [x]) == StrandsPoints(ss) + x.allPoints
  {
    if ss != [] {
      assert (ss + [x])[1..] == ss[1..] + [x];
      StrandsPointsSnoc(ss[1..], x);
    }
  }

  lemma {:induction false} StrandsPointsAppend(ss: seq<Strand>, tt: seq<Strand>)
    ensures StrandsPoints(ss + tt) == StrandsPoints(ss) + StrandsPoints(tt)
  {
    if ss != [] {
      assert (ss + tt)[1..] == ss[1..] + tt;
      StrandsPointsAppend(ss[1..], tt);
    } else {
      assert ss + tt == tt;
    }
  }

  lemma {:induction false} StrandsButterfliesSnoc(ss: seq<Strand>, x: Strand)
    ensures StrandsButterflies(ss + [x]) == StrandsButterflies(ss) + x.butterflies
  {
    if ss != [] {
      assert (ss + [x])[1..] == ss[1..] + [x];
      StrandsButterfliesSnoc(ss[1..], x);
    }
  }

  lemma {:induction false} StrandsFlowersSnoc(ss: seq<Strand>, x: Strand)
    ensures StrandsFlowers(ss + [x]) == StrandsFlowers(ss) + x.flowers
  {
    if ss != [] {
      assert (ss + [x])[1..] == ss[1..] + [x];
      StrandsFlowersSnoc(ss[1..], x);
    }
  }

  lemma {:induction false} RunsPointsSnoc(rs: seq<Run>, x: Run)
    ensures RunsPoints(rs + [x]) == RunsPoints(rs) + x.allPoints
  {
    if rs != [] {
      assert (rs + [x])[1..] == rs[1..] + [x];
      RunsPointsSnoc(rs[1..], x);
    }
  }

  /**
   * What a butterfly run built from counters c holds after j strands: strand k
   * has the next global ID c.strand + k, curve k and exactly its configured
   * number of butterflies; the run's butterflies and points are its strands'
   * concatenated and are the next ones in creation order; the run index of
   * every butterfly is its position in the run.
   */
  ghost predicate ButterflyRunOk(b: RunBuild, j: nat, runIndex: int, c: Next, lengths: map<int, int>)
  {
    && b.run.runIndex == runIndex && b.run.runType == ButterflyRun
    && b.run.strands == [] && b.run.flowers == [] && b.flowers == []
    && |b.strands| == j <= CurvesPerRun
    && (forall k :: 0 <= k < j ==>
          && b.strands[k].strandId == c.strand + k && b.strands[k].strandRunIndex == k
          && b.strands[k].strandType == ButterflyStrand && b.strands[k].flowers == []
          && c.strand + k in lengths && |b.strands[k].butterflies| == Count(lengths[c.strand + k]))
    && b.run.butterflies == StrandsButterflies(b.strands) == Range(c.butterfly, |b.butterflies|)
    && b.run.allPoints == StrandsPoints(b.strands) == Range(c.point, ButterflyPointCount * |b.butterflies|)
    && (forall k :: 0 <= k < |b.butterflies| ==>
          b.butterflies[k].runIndex == k && b.butterflies[k].firstPoint == c.point + ButterflyPointCount * k)
    && b.next == Next(c.strand + j, c.butterfly + |b.butterflies|, c.flower, c.point + ButterflyPointCount * |b.butterflies|)
  }

  /** The same for a flower run. */
  ghost predicate FlowerRunOk(b: RunBuild, j: nat, runIndex: int, c: Next, lengths: map<int, int>)
  {
    && b.run.runIndex == runIndex && b.run.runType == FlowerRun
    && b.run.strands == [] && b.run.butterflies == [] && b.butterflies == []
    && |b.strands| == j
    && (forall k :: 0 <= k < j ==>
          && b.strands[k].strandId == c.strand + k && b.strands[k].strandRunIndex == 0
          && b.strands[k].strandType == FlowerStrand && b.strands[k].butterflies == []
          && c.strand + k in lengths && |b.strands[k].flowers| == Count(lengths[c.strand + k]))
    && b.run.flowers == StrandsFlowers(b.strands) == Range(c.flower, |b.flowers|)
    && b.run.allPoints == StrandsPoints(b.strands) == Range(c.point, FlowerPointCount * |b.flowers|)
    && (forall k :: 0 <= k < |b.flowers| ==>
          b.flowers[k].runIndex == k && b.flowers[k].firstPoint == c.point + FlowerPointCount * k)
    && b.next == Next(c.strand + j, c.butterfly, c.flower + |b.flowers|, c.point + FlowerPointCount * |b.flowers|)
  }

  /**
   * Lists of strands and fixture descriptors that have grown from strands0,
   * butterflies0 and flowers0 by exactly what the run b built, with the
   * counters b.next.
   */
  ghost predicate Grown(b: RunBuild, strands: seq<Strand>, butterflies: seq<ButterflyInfo>, flowers: seq<FlowerInfo>,
                        next: Next, strands0: seq<Strand>, butterflies0: seq<ButterflyInfo>, flowers0: seq<FlowerInfo>)
  {
    && strands == strands0 + b.strands
    && butterflies == butterflies0 + b.butterflies
    && flowers == flowers0 + b.flowers
    && next == b.next
  }

  /** The run after one more butterfly strand, as ButterflyRunAfter appends it. */
  function AddButterflyStrand(b: RunBuild, s: Strand, curve: int, den: int): RunBuild
  {
    RunBuild(
      b.run.(butterflies := b.run.butterflies + s.butterflies, allPoints := b.run.allPoints + s.allPoints),
      b.strands + [s],
      b.next.(strand := b.next.strand + 1, butterfly := b.next.butterfly + |s.butterflies|, point := b.next.point + |s.allPoints|),
      b.butterflies + NewButterflies(|s.butterflies|, curve, den, |b.run.butterflies|, b.next.point),
      b.flowers)
  }

  /** The run after one more flower strand, as FlowerRunAfter appends it. */
  function AddFlowerStrand(b: RunBuild, s: Strand): RunBuild
  {
    RunBuild(
      b.run.(flowers := b.run.flowers + s.flowers, allPoints := b.run.allPoints + s.allPoints),
      b.strands + [s],
      b.next.(strand := b.next.strand + 1, flower := b.next.flower + |s.flowers|, point := b.next.point + |s.allPoints|),
      b.butterflies,
      b.flowers + NewFlowers(|s.flowers|, |b.run.flowers|, b.next.point))
  }
  /** Appending a butterfly strand and its butterflies keeps the lists grown by exactly the run. */
  lemma ButterflyGrownStep(b: RunBuild, s: Strand, curve: int, den: int, strands: seq<Strand>,
                           butterflies: seq<ButterflyInfo>, flowers: seq<FlowerInfo>, strands0: seq<Strand>,
                           butterflies0: seq<ButterflyInfo>, flowers0: seq<FlowerInfo>)
    requires Grown(b, strands, butterflies, flowers, b.next, strands0, butterflies0, flowers0)
    ensures Grown(AddButterflyStrand(b, s, curve, den), strands + [s],
                  butterflies + NewButterflies(|s.butterflies|, curve, den, |b.run.butterflies|, b.next.point), flowers,
                  AddButterflyStrand(b, s, curve, den).next, strands0, butterflies0, flowers0)
  {
  }

  /** Appending a flower strand and its flowers keeps the lists grown by exactly the run. */
  lemma FlowerGrownStep(b: RunBuild, s: Strand, strands: seq<Strand>, butterflies: seq<ButterflyInfo>,
                        flowers: seq<FlowerInfo>, strands0: seq<Strand>, butterflies0: seq<ButterflyInfo>,
                        flowers0: seq<FlowerInfo>)
    requires Grown(b, strands, butterflies, flowers, b.next, strands0, butterflies0, flowers0)
    ensures Grown(AddFlowerStrand(b, s), strands + [s], butterflies,
                  flowers + NewFlowers(|s.flowers|, |b.run.flowers|, b.next.point),
                  AddFlowerStrand(b, s).next, strands0, butterflies0, flowers0)
  {
  }


  lemma ButterflyRunStepStrands(b: RunBuild, j: nat, runIndex: int, c: Next, lengths: map<int, int>, s: Strand, den: int)
    requires ButterflyRunOk(b, j, runIndex, c, lengths)
    requires ButterflyStrandSpec(b.next.strand, j, b.next, lengths) == Success(s)
    ensures var b' := AddButterflyStrand(b, s, j, den);
            && |b'.strands| == j + 1 <= CurvesPerRun
            && forall k :: 0 <= k < j + 1 ==>
                 && b'.strands[k].strandId == c.strand + k && b'.strands[k].strandRunIndex == k
                 && b'.strands[k].strandType == ButterflyStrand && b'.strands[k].flowers == []
                 && c.strand + k in lengths && |b'.strands[k].butterflies| == Count(lengths[c.strand + k])
  {
    var b' := AddButterflyStrand(b, s, j, den);
    assert b'.strands[j] == s;
    forall k | 0 <= k < j
      ensures b'.strands[k] == b.strands[k]
    {
    }
  }

  lemma ButterflyRunStepFixtures(b: RunBuild, j: nat, runIndex: int, c: Next, lengths: map<int, int>, s: Strand, den: int)
    requires ButterflyRunOk(b, j, runIndex, c, lengths)
    requires ButterflyStrandSpec(b.next.strand, j, b.next, lengths) == Success(s)
    ensures var b' := AddButterflyStrand(b, s, j, den);
            && b'.run.butterflies == StrandsButterflies(b'.strands) == Range(c.butterfly, |b'.butterflies|)
            && b'.run.allPoints == StrandsPoints(b'.strands) == Range(c.point, ButterflyPointCount * |b'.butterflies|)
            && (forall k :: 0 <= k < |b'.butterflies| ==>
                  b'.butterflies[k].runIndex == k && b'.butterflies[k].firstPoint == c.point + ButterflyPointCount * k)
            && b'.next == Next(c.strand + j + 1, c.butterfly + |b'.butterflies|, c.flower, c.point + ButterflyPointCount * |b'.butterflies|)
  {
    var b' := AddButterflyStrand(b, s, j, den);
    StrandsButterfliesSnoc(b.strands, s);
    StrandsPointsSnoc(b.strands, s);
    RangeAppend(c.butterfly, |b.butterflies|, |s.butterflies|);
    RangeAppend(c.point, ButterflyPointCount * |b.butterflies|, ButterflyPointCount * |s.butterflies|);
    forall k | |b.butterflies| <= k < |b'.butterflies|
      ensures b'.butterflies[k].runIndex == k && b'.butterflies[k].firstPoint == c.point + ButterflyPointCount * k
    {
      NewButterfliesAt(|s.butterflies|, j, den, |b.run.butterflies|, b.next.point, k - |b.butterflies|);
    }
  }

  lemma ButterflyRunStep(b: RunBuild, j: nat, runIndex: int, c: Next, lengths: map<int, int>, s: Strand, den: int)
    requires ButterflyRunOk(b, j, runIndex, c, lengths)
    requires ButterflyStrandSpec(b.next.strand, j, b.next, lengths) == Success(s)
    ensures ButterflyRunOk(AddButterflyStrand(b, s, j, den), j + 1, runIndex, c, lengths)
  {
    ButterflyRunStepStrands(b, j, runIndex, c, lengths, s, den);
    ButterflyRunStepFixtures(b, j, runIndex, c, lengths, s, den);
  }

  lemma FlowerRunStepStrands(b: RunBuild, j: nat, runIndex: int, c: Next, lengths: map<int, int>, s: Strand)
    requires FlowerRunOk(b, j, runIndex, c, lengths)
    requires FlowerStrandSpec(b.next.strand, b.next, lengths) == Success(s)
    ensures var b' := AddFlowerStrand(b, s);
            && |b'.strands| == j + 1
            && forall k :: 0 <= k < j + 1 ==>
                 && b'.strands[k].strandId == c.strand + k && b'.strands[k].strandRunIndex == 0
                 && b'.strands[k].strandType == FlowerStrand && b'.strands[k].butterflies == []
                 && c.strand + k in lengths && |b'.strands[k].flowers| == Count(lengths[c.strand + k])
  {
    var b' := AddFlowerStrand(b, s);
    assert b'.strands[j] == s;
    forall k | 0 <= k < j
      ensures b'.strands[k] == b.strands[k]
    {
    }
  }

  lemma FlowerRunStepFixtures(b: RunBuild, j: nat, runIndex: int, c: Next, lengths: map<int, int>, s: Strand)
    requires FlowerRunOk(b, j, runIndex, c, lengths)
    requires FlowerStrandSpec(b.next.strand, b.next, lengths) == Success(s)
    ensures var b' := AddFlowerStrand(b, s);
            && b'.run.flowers == StrandsFlowers(b'.strands) == Range(c.flower, |b'.flowers|)
            && b'.run.allPoints == StrandsPoints(b'.strands) == Range(c.point, FlowerPointCount * |b'.flowers|)
            && (forall k :: 0 <= k < |b'.flowers| ==>
                  b'.flowers[k].runIndex == k && b'.flowers[k].firstPoint == c.point + FlowerPointCount * k)
            && b'.next == Next(c.strand + j + 1, c.butterfly, c.flower + |b'.flowers|, c.point + FlowerPointCount * |b'.flowers|)
  {
    var b' := AddFlowerStrand(b, s);
    StrandsFlowersSnoc(b.strands, s);
    StrandsPointsSnoc(b.strands, s);
    RangeAppend(c.flower, |b.flowers|, |s.flowers|);
    RangeAppend(c.point, FlowerPointCount * |b.flowers|, FlowerPointCount * |s.flowers|);
    forall k | |b.flowers| <= k < |b'.flowers|
      ensures b'.flowers[k].runIndex == k && b'.flowers[k].firstPoint == c.point + FlowerPointCount * k
    {
      NewFlowersAt(|s.flowers|, |b.run.flowers|, b.next.point, k - |b.flowers|);
    }
  }

  lemma FlowerRunStep(b: RunBuild, j: nat, runIndex: int, c: Next, lengths: map<int, int>, s: Strand)
    requires FlowerRunOk(b, j, runIndex, c, lengths)
    requires FlowerStrandSpec(b.next.strand, b.next, lengths) == Success(s)
    ensures FlowerRunOk(AddFlowerStrand(b, s), j + 1, runIndex, c, lengths)
  {
    FlowerRunStepStrands(b, j, runIndex, c, lengths, s);
    FlowerRunStepFixtures(b, j, runIndex, c, lengths, s);
  }

  lemma {:induction false} ButterflyRunAfterOk(j: nat, runIndex: int, c: Next, butterfliesPerStrand: int,
                                               numStrandsPerRun: int, lengths: map<int, int>)
    ensures var r := ButterflyRunAfter(j, runIndex, c, butterfliesPerStrand, numStrandsPerRun, lengths);
            r.Success? ==> ButterflyRunOk(r.value, j, runIndex, c, lengths)
  {
    if j > 0 && ButterflyRunAfter(j, runIndex, c, butterfliesPerStrand, numStrandsPerRun, lengths).Success? {
      ButterflyRunAfterOk(j - 1, runIndex, c, butterfliesPerStrand, numStrandsPerRun, lengths);
      var b := ButterflyRunAfter(j - 1, runIndex, c, butterfliesPerStrand, numStrandsPerRun, lengths).value;
      var s := ButterflyStrandSpec(b.next.strand, j - 1, b.next, lengths).value;
      ButterflyRunStep(b, j - 1, runIndex, c, lengths, s, CurveDenominator(butterfliesPerStrand, numStrandsPerRun));
    }
  }

  lemma {:induction false} FlowerRunAfterOk(j: nat, runIndex: int, c: Next, lengths: map<int, int>)
    ensures var r := FlowerRunAfter(j, runIndex, c, lengths);
            r.Success? ==> FlowerRunOk(r.value, j, runIndex, c, lengths)
  {
    if j > 0 && FlowerRunAfter(j, runIndex, c, lengths).Success? {
      FlowerRunAfterOk(j - 1, runIndex, c, lengths);
      var b := FlowerRunAfter(j - 1, runIndex, c, lengths).value;
      var s := FlowerStrandSpec(b.next.strand, b.next, lengths).value;
      FlowerRunStep(b, j - 1, runIndex, c, lengths, s);
    }
  }

  /** A run of j strands has allocated the next j strand IDs. */
  lemma ButterflyRunAfterStrands(j: nat, runIndex: int, c: Next, butterfliesPerStrand: int, numStrandsPerRun: int,
                                 lengths: map<int, int>)
    ensures var r := ButterflyRunAfter(j, runIndex, c, butterfliesPerStrand, numStrandsPerRun, lengths);
            r.Success? ==> r.value.next.strand == c.strand + j
  {
    ButterflyRunAfterOk(j, runIndex, c, butterfliesPerStrand, numStrandsPerRun, lengths);
  }

  lemma FlowerRunAfterStrands(j: nat, runIndex: int, c: Next, lengths: map<int, int>)
    ensures var r := FlowerRunAfter(j, runIndex, c, lengths);
            r.Success? ==> r.value.next.strand == c.strand + j
  {
    FlowerRunAfterOk(j, runIndex, c, lengths);
  }

  /**
   * A butterfly run of j strands can be built exactly when it needs at most
   * the two curves a run has and every strand ID it takes has a configured length.
   */
  lemma {:induction false} ButterflyRunAfterSucceeds(j: nat, runIndex: int, c: Next, butterfliesPerStrand: int,
                                                     numStrandsPerRun: int, lengths: map<int, int>)
    ensures ButterflyRunAfter(j, runIndex, c, butterfliesPerStrand, numStrandsPerRun, lengths).Success?
        <==> j <= CurvesPerRun && LengthsConfigured(lengths, c.strand, j)
  {
    if j > 0 {
      ButterflyRunAfterSucceeds(j - 1, runIndex, c, butterfliesPerStrand, numStrandsPerRun, lengths);
      ButterflyRunAfterStrands(j - 1, runIndex, c, butterfliesPerStrand, numStrandsPerRun, lengths);
      LengthsConfiguredSplit(lengths, c.strand, j - 1, 1);
    }
  }

  /** A flower run of j strands can be built exactly when every strand ID it takes has a configured length. */
  lemma {:induction false} FlowerRunAfterSucceeds(j: nat, runIndex: int, c: Next, lengths: map<int, int>)
    ensures FlowerRunAfter(j, runIndex, c, lengths).Success? <==> LengthsConfigured(lengths, c.strand, j)
  {
    if j > 0 {
      FlowerRunAfterSucceeds(j - 1, runIndex, c, lengths);
      FlowerRunAfterStrands(j - 1, runIndex, c, lengths);
      LengthsConfiguredSplit(lengths, c.strand, j - 1, 1);
    }
  }

  /**
   * Why a butterfly run fails: the first strand that has no configured length,
   * or else the third strand, for which the run has no curve.
   */
  lemma {:induction false} ButterflyRunAfterError(j: nat, runIndex: int, c: Next, butterfliesPerStrand: int,
                                                  numStrandsPerRun: int, lengths: map<int, int>)
    ensures var r := ButterflyRunAfter(j, runIndex, c, butterfliesPerStrand, numStrandsPerRun, lengths);
            r.Failure? ==>
              || (exists m :: 0 <= m < j && m <= CurvesPerRun && LengthsConfigured(lengths, c.strand, m)
                              && c.strand + m !in lengths && r.error == MissingStrandLength(c.strand + m))
              || (CurvesPerRun < j && LengthsConfigured(lengths, c.strand, CurvesPerRun + 1)
                  && r.error == MissingCurve(CurvesPerRun))
  {
    if j > 0 {
      var r := ButterflyRunAfter(j, runIndex, c, butterfliesPerStrand, numStrandsPerRun, lengths);
      var prev := ButterflyRunAfter(j - 1, runIndex, c, butterfliesPerStrand, numStrandsPerRun, lengths);
      if prev.Failure? {
        ButterflyRunAfterError(j - 1, runIndex, c, butterfliesPerStrand, numStrandsPerRun, lengths);
      } else if r.Failure? {
        ButterflyRunAfterStrands(j - 1, runIndex, c, butterfliesPerStrand, numStrandsPerRun, lengths);
        ButterflyRunAfterSucceeds(j - 1, runIndex, c, butterfliesPerStrand, numStrandsPerRun, lengths);
        LengthsConfiguredSplit(lengths, c.strand, j - 1, 1);
        if c.strand + j - 1 !in lengths {
          assert 0 <= j - 1 < j && j - 1 <= CurvesPerRun && LengthsConfigured(lengths, c.strand, j - 1)
              && c.strand + (j - 1) !in lengths && r.error == MissingStrandLength(c.strand + (j - 1));
        }
      }
    }
  }

  /** Why a flower run fails: the first strand that has no configured length. */
  lemma {:induction false} FlowerRunAfterError(j: nat, runIndex: int, c: Next, lengths: map<int, int>)
    ensures var r := FlowerRunAfter(j, runIndex, c, lengths);
            r.Failure? ==>
              exists m :: 0 <= m < j && LengthsConfigured(lengths, c.strand, m)
                          && c.strand + m !in lengths && r.error == MissingStrandLength(c.strand + m)
  {
    if j > 0 {
      var r := FlowerRunAfter(j, runIndex, c, lengths);
      var prev := FlowerRunAfter(j - 1, runIndex, c, lengths);
      if prev.Failure? {
        FlowerRunAfterError(j - 1, runIndex, c, lengths);
      } else if r.Failure? {
        FlowerRunAfterStrands(j - 1, runIndex, c, lengths);
        FlowerRunAfterSucceeds(j - 1, runIndex, c, lengths);
        assert 0 <= j - 1 < j && LengthsConfigured(lengths, c.strand, j - 1)
            && c.strand + (j - 1) !in lengths && r.error == MissingStrandLength(c.strand + (j - 1));
      }
    }
  }

  /** Once a strand has failed, the run fails with that error however many strands it was to have. */
  lemma {:induction false} ButterflyRunFailurePersists(j: nat, k: nat, runIndex: int, c: Next, butterfliesPerStrand: int,
                                                       numStrandsPerRun: int, lengths: map<int, int>)
    requires j <= k
    requires ButterflyRunAfter(j, runIndex, c, butterfliesPerStrand, numStrandsPerRun, lengths).Failure?
    ensures ButterflyRunAfter(k, runIndex, c, butterfliesPerStrand, numStrandsPerRun, lengths)
         == ButterflyRunAfter(j, runIndex, c, butterfliesPerStrand, numStrandsPerRun, lengths)
  {
    if j < k {
      ButterflyRunFailurePersists(j, k - 1, runIndex, c, butterfliesPerStrand, numStrandsPerRun, lengths);
    }
  }

  lemma {:induction false} FlowerRunFailurePersists(j: nat, k: nat, runIndex: int, c: Next, lengths: map<int, int>)
    requires j <= k
    requires FlowerRunAfter(j, runIndex, c, lengths).Failure?
    ensures FlowerRunAfter(k, runIndex, c, lengths) == FlowerRunAfter(j, runIndex, c, lengths)
  {
    if j < k {
      FlowerRunFailurePersists(j, k - 1, runIndex, c, lengths);
    }
  }

  // ---------------------------------------------------------------------------
  // The model
  // ---------------------------------------------------------------------------

  /**
   * The model under construction: allRuns, allStrands, the model's point
   * list, the counters, and the fixtures of allButterflies and allFlowers.
   */
  datatype ModelBuild = ModelBuild(runs: seq<Run>, strands: seq<Strand>, points: seq<int>, next: Next,
                                   butterflies: seq<ButterflyInfo>, flowers: seq<FlowerInfo>)

  /** The lists createModel resets; the model's points are numbered from 0. */
  const EmptyModel := ModelBuild([], [], [], Next(0, 0, 0, 0), [], [])

  /** Appending a built run: allRuns.add(run) and allPoints.addAll(run.allPoints). */
  function AddRun(m: ModelBuild, b: RunBuild): ModelBuild
  {
    ModelBuild(m.runs + [b.run], m.strands + b.strands, m.points + b.run.allPoints, b.next,
               m.butterflies + b.butterflies, m.flowers + b.flowers)
  }

  /** The lists runs, strands, butterflies and flowers and the counters next are those of the model m. */
  ghost predicate Matches(m: ModelBuild, runs: seq<Run>, strands: seq<Strand>, butterflies: seq<ButterflyInfo>,
                          flowers: seq<FlowerInfo>, next: Next)
  {
    m.runs == runs && m.strands == strands && m.butterflies == butterflies && m.flowers == flowers && m.next == next
  }

  /** Once the lists have grown by what the run b built and b.run is appended to the runs, they are those of AddRun(m, b). */
  lemma AddRunMatches(m: ModelBuild, b: RunBuild, runs: seq<Run>, strands: seq<Strand>, butterflies: seq<ButterflyInfo>,
                      flowers: seq<FlowerInfo>, next: Next)
    requires Grown(b, strands, butterflies, flowers, next, m.strands, m.butterflies, m.flowers)
    requires runs == m.runs + [b.run]
    ensures Matches(AddRun(m, b), runs, strands, butterflies, flowers, next)
  {
  }

  /** createModel after its first i butterfly runs: run i has run index i and strandsPerRun strands. */
  function ButterflyRunsAfter(i: nat, strandsPerRun: int, butterfliesPerStrand: int, lengths: map<int, int>): Result<ModelBuild, Error>
  {
    if i == 0 then Success(EmptyModel)
    else
      match ButterflyRunsAfter(i - 1, strandsPerRun, butterfliesPerStrand, lengths) {
        case Failure(e) => Failure(e)
        case Success(m) =>
          match ButterflyRunAfter(Count(strandsPerRun), i - 1, m.next, butterfliesPerStrand, strandsPerRun, lengths) {
            case Failure(e) => Failure(e)
            case Success(b) => Success(AddRun(m, b))
          }
      }
  }

  /** createModel after i flower runs following the model m: each has one strand and the next run index. */
  function FlowerRunsAfter(i: nat, m: ModelBuild, lengths: map<int, int>): Result<ModelBuild, Error>
  {
    if i == 0 then Success(m)
    else
      match FlowerRunsAfter(i - 1, m, lengths) {
        case Failure(e) => Failure(e)
        case Success(m') =>
          match FlowerRunAfter(1, |m'.runs|, m'.next, lengths) {
            case Failure(e) => Failure(e)
            case Success(b) => Success(AddRun(m', b))
          }
      }
  }

  /** One more butterfly run appends what that run builds from the counters so far. */
  lemma ButterflyRunsAfterNext(i: nat, strandsPerRun: int, butterfliesPerStrand: int, lengths: map<int, int>,
                               m: ModelBuild, b: RunBuild)
    requires ButterflyRunsAfter(i, strandsPerRun, butterfliesPerStrand, lengths) == Success(m)
    requires ButterflyRunAfter(Count(strandsPerRun), i, m.next, butterfliesPerStrand, strandsPerRun, lengths) == Success(b)
    ensures ButterflyRunsAfter(i + 1, strandsPerRun, butterfliesPerStrand, lengths) == Success(AddRun(m, b))
  {
  }

  /** One more flower run appends what that run builds from the counters so far. */
  lemma FlowerRunsAfterNext(i: nat, m: ModelBuild, lengths: map<int, int>, m': ModelBuild, b: RunBuild)
    requires FlowerRunsAfter(i, m, lengths) == Success(m')
    requires FlowerRunAfter(1, |m'.runs|, m'.next, lengths) == Success(b)
    ensures FlowerRunsAfter(i + 1, m, lengths) == Success(AddRun(m', b))
  {
  }

  /** createModel(numRuns, strandsPerRun, butterfliesPerStrand) with runsFlowers flower runs. */
  function CreateModelSpec(numRuns: int, strandsPerRun: int, butterfliesPerStrand: int, flowerRuns: int,
                           lengths: map<int, int>): Result<ModelBuild, Error>
  {
    if numRuns < 0 then Failure(IllegalCapacity(numRuns))
    else
      match ButterflyRunsAfter(numRuns, strandsPerRun, butterfliesPerStrand, lengths) {
        case Failure(e) => Failure(e)
        case Success(m) => FlowerRunsAfter(Count(flowerRuns), m, lengths)
      }
  }

  function ModelPoints(m: Result<ModelBuild, Error>): Result<seq<int>, Error>
  {
    match m
    case Success(v) => Success(v.points)
    case Failure(e) => Failure(e)
  }

  lemma {:induction false} ButterflyRunsFailurePersists(i: nat, k: nat, strandsPerRun: int, butterfliesPerStrand: int,
                                                        lengths: map<int, int>)
    requires i <= k
    requires ButterflyRunsAfter(i, strandsPerRun, butterfliesPerStrand, lengths).Failure?
    ensures ButterflyRunsAfter(k, strandsPerRun, butterfliesPerStrand, lengths)
         == ButterflyRunsAfter(i, strandsPerRun, butterfliesPerStrand, lengths)
  {
    if i < k {
      ButterflyRunsFailurePersists(i, k - 1, strandsPerRun, butterfliesPerStrand, lengths);
    }
  }

  lemma {:induction false} FlowerRunsFailurePersists(i: nat, k: nat, m: ModelBuild, lengths: map<int, int>)
    requires i <= k
    requires FlowerRunsAfter(i, m, lengths).Failure?
    ensures FlowerRunsAfter(k, m, lengths) == FlowerRunsAfter(i, m, lengths)
  {
    if i < k {
      FlowerRunsFailurePersists(i, k - 1, m, lengths);
    }
  }

  /** Run i has run index i, and the first nb runs are the butterfly runs. */
  ghost predicate RunsNumbered(runs: seq<Run>, nb: nat)
  {
    forall i :: 0 <= i < |runs| ==>
      runs[i].runIndex == i && runs[i].strands == [] && (runs[i].runType == ButterflyRun <==> i < nb)
  }

  /** Strand k has ID k, and the first nbs strands are the butterfly strands. */
  ghost predicate StrandsNumbered(strands: seq<Strand>, nbs: int)
  {
    forall k :: 0 <= k < |strands| ==>
      strands[k].strandId == k && (strands[k].strandType == ButterflyStrand <==> k < nbs)
  }

  /** Each run after the first nb is exactly one strand, taken in order after the first nbs strands. */
  ghost predicate FlowerRunsSingleStrand(runs: seq<Run>, strands: seq<Strand>, nb: nat, nbs: nat)
  {
    forall i :: nb <= i < |runs| ==>
      nbs + (i - nb) < |strands| && runs[i].allPoints == strands[nbs + (i - nb)].allPoints
  }

  /**
   * The model's points are 0 .. P-1 and are the runs' points and the strands'
   * points concatenated, 16 per butterfly and 5 per flower.
   */
  ghost predicate PointsLaidOut(m: ModelBuild)
  {
    && m.points == Range(0, |m.points|) == RunsPoints(m.runs) == StrandsPoints(m.strands)
    && |m.points| == ButterflyPointCount * |m.butterflies| + FlowerPointCount * |m.flowers|
  }

  /** Fixtures are listed in creation order: every butterfly's points come before every flower's. */
  ghost predicate FixturesInOrder(bs: seq<ButterflyInfo>, fs: seq<FlowerInfo>)
  {
    && (forall k :: 0 <= k < |bs| ==> bs[k].firstPoint == ButterflyPointCount * k)
    && (forall k :: 0 <= k < |fs| ==> fs[k].firstPoint == ButterflyPointCount * |bs| + FlowerPointCount * k)
  }

  /** What the model holds after nb butterfly runs of spr strands each and nf flower runs. */
  ghost predicate ModelOk(m: ModelBuild, nb: nat, spr: nat, nf: nat)
  {
    && |m.runs| == nb + nf && RunsNumbered(m.runs, nb)
    && |m.strands| == nb * spr + nf && StrandsNumbered(m.strands, nb * spr)
    && FlowerRunsSingleStrand(m.runs, m.strands, nb, nb * spr)
    && PointsLaidOut(m)
    && (nf == 0 ==> m.flowers == [])
    && FixturesInOrder(m.butterflies, m.flowers)
    && m.next == Next(|m.strands|, |m.butterflies|, |m.flowers|, |m.points|)
  }

  lemma MulSucc(a: nat, b: nat)
    ensures (a + 1) * b == a * b + b
  {
  }

  lemma RunsNumberedSnoc(runs: seq<Run>, nb: nat, nb': nat, r: Run)
    requires RunsNumbered(runs, nb)
    requires nb' == nb || (nb' == nb + 1 && |runs| == nb)
    requires r.runIndex == |runs| && r.strands == [] && (r.runType == ButterflyRun <==> |runs| < nb')
    ensures RunsNumbered(runs + [r], nb')
  {
    forall i | 0 <= i < |runs|
      ensures (runs + [r])[i] == runs[i]
    {
    }
  }

  lemma StrandsNumberedAppend(ss: seq<Strand>, nbs: int, nbs': int, tt: seq<Strand>)
    requires StrandsNumbered(ss, nbs)
    requires nbs == nbs' || |ss| <= nbs <= nbs'
    requires forall k :: 0 <= k < |tt| ==>
               tt[k].strandId == |ss| + k && (tt[k].strandType == ButterflyStrand <==> |ss| + k < nbs')
    ensures StrandsNumbered(ss + tt, nbs')
  {
    forall k | 0 <= k < |ss + tt|
      ensures (ss + tt)[k].strandId == k && ((ss + tt)[k].strandType == ButterflyStrand <==> k < nbs')
    {
      if k >= |ss| {
        assert (ss + tt)[k] == tt[k - |ss|];
      }
    }
  }

  lemma PointsLaidOutAddRun(m: ModelBuild, b: RunBuild)
    requires PointsLaidOut(m)
    requires b.run.allPoints == StrandsPoints(b.strands) == Range(|m.points|, |b.run.allPoints|)
    requires |b.run.allPoints| == ButterflyPointCount * |b.butterflies| + FlowerPointCount * |b.flowers|
    ensures PointsLaidOut(AddRun(m, b))
  {
    RangeAppend(0, |m.points|, |b.run.allPoints|);
    RunsPointsSnoc(m.runs, b.run);
    StrandsPointsAppend(m.strands, b.strands);
  }

  lemma ButterflyModelStepStrands(m: ModelBuild, nb: nat, spr: nat, b: RunBuild, lengths: map<int, int>)
    requires ModelOk(m, nb, spr, 0)
    requires ButterflyRunOk(b, spr, nb, m.next, lengths)
    ensures var m' := AddRun(m, b);
            && |m'.runs| == nb + 1 && RunsNumbered(m'.runs, nb + 1)
            && |m'.strands| == (nb + 1) * spr && StrandsNumbered(m'.strands, (nb + 1) * spr)
            && FlowerRunsSingleStrand(m'.runs, m'.strands, nb + 1, (nb + 1) * spr)
  {
    MulSucc(nb, spr);
    RunsNumberedSnoc(m.runs, nb, nb + 1, b.run);
    StrandsNumberedAppend(m.strands, nb * spr, (nb + 1) * spr, b.strands);
  }

  lemma ButterflyModelStepFixtures(m: ModelBuild, nb: nat, spr: nat, b: RunBuild, lengths: map<int, int>)
    requires ModelOk(m, nb, spr, 0)
    requires ButterflyRunOk(b, spr, nb, m.next, lengths)
    ensures var m' := AddRun(m, b);
            && PointsLaidOut(m') && m'.flowers == [] && FixturesInOrder(m'.butterflies, m'.flowers)
            && m'.next == Next(|m'.strands|, |m'.butterflies|, |m'.flowers|, |m'.points|)
  {
    var m' := AddRun(m, b);
    PointsLaidOutAddRun(m, b);
    forall k | 0 <= k < |m'.butterflies|
      ensures m'.butterflies[k].firstPoint == ButterflyPointCount * k
    {
      if k >= |m.butterflies| {
        assert m'.butterflies[k] == b.butterflies[k - |m.butterflies|];
      }
    }
  }

  lemma ButterflyModelStep(m: ModelBuild, nb: nat, spr: nat, b: RunBuild, lengths: map<int, int>)
    requires ModelOk(m, nb, spr, 0)
    requires ButterflyRunOk(b, spr, nb, m.next, lengths)
    ensures ModelOk(AddRun(m, b), nb + 1, spr, 0)
  {
    ButterflyModelStepStrands(m, nb, spr, b, lengths);
    ButterflyModelStepFixtures(m, nb, spr, b, lengths);
  }

  lemma FlowerModelStepStrands(m: ModelBuild, nb: nat, spr: nat, nf: nat, b: RunBuild, lengths: map<int, int>)
    requires ModelOk(m, nb, spr, nf)
    requires FlowerRunOk(b, 1, |m.runs|, m.next, lengths)
    ensures var m' := AddRun(m, b);
            && |m'.runs| == nb + nf + 1 && RunsNumbered(m'.runs, nb)
            && |m'.strands| == nb * spr + nf + 1 && StrandsNumbered(m'.strands, nb * spr)
            && FlowerRunsSingleStrand(m'.runs, m'.strands, nb, nb * spr)
  {
    var m' := AddRun(m, b);
    RunsNumberedSnoc(m.runs, nb, nb, b.run);
    StrandsNumberedAppend(m.strands, nb * spr, nb * spr, b.strands);
    assert b.strands == [b.strands[0]];
    assert StrandsPoints(b.strands) == b.strands[0].allPoints + StrandsPoints([]);
    forall i | nb <= i < |m'.runs|
      ensures nb * spr + (i - nb) < |m'.strands| && m'.runs[i].allPoints == m'.strands[nb * spr + (i - nb)].allPoints
    {
      if i < |m.runs| {
        assert m'.runs[i] == m.runs[i];
        assert m'.strands[nb * spr + (i - nb)] == m.strands[nb * spr + (i - nb)];
      } else {
        assert m'.strands[nb * spr + (i - nb)] == b.strands[0];
      }
    }
  }

  lemma FlowerModelStepFixtures(m: ModelBuild, nb: nat, spr: nat, nf: nat, b: RunBuild, lengths: map<int, int>)
    requires ModelOk(m, nb, spr, nf)
    requires FlowerRunOk(b, 1, |m.runs|, m.next, lengths)
    ensures var m' := AddRun(m, b);
            && PointsLaidOut(m') && FixturesInOrder(m'.butterflies, m'.flowers)
            && m'.next == Next(|m'.strands|, |m'.butterflies|, |m'.flowers|, |m'.points|)
  {
    var m' := AddRun(m, b);
    assert b.strands == [b.strands[0]];
    assert StrandsPoints(b.strands) == b.strands[0].allPoints + StrandsPoints([]);
    PointsLaidOutAddRun(m, b);
    assert m'.butterflies == m.butterflies;
    forall k | 0 <= k < |m'.flowers|
      ensures m'.flowers[k].firstPoint == ButterflyPointCount * |m'.butterflies| + FlowerPointCount * k
    {
      if k >= |m.flowers| {
        assert m'.flowers[k] == b.flowers[k - |m.flowers|];
      }
    }
  }

  lemma FlowerModelStep(m: ModelBuild, nb: nat, spr: nat, nf: nat, b: RunBuild, lengths: map<int, int>)
    requires ModelOk(m, nb, spr, nf)
    requires FlowerRunOk(b, 1, |m.runs|, m.next, lengths)
    ensures ModelOk(AddRun(m, b), nb, spr, nf + 1)
  {
    FlowerModelStepStrands(m, nb, spr, nf, b, lengths);
    FlowerModelStepFixtures(m, nb, spr, nf, b, lengths);
  }

  /** One more butterfly run keeps ModelOk, with one more run counted. */
  lemma ButterflyRunsAfterStepOk(i: nat, strandsPerRun: int, butterfliesPerStrand: int, lengths: map<int, int>,
                                 m: ModelBuild, b: RunBuild)
    requires ButterflyRunsAfter(i, strandsPerRun, butterfliesPerStrand, lengths) == Success(m)
    requires ModelOk(m, i, Count(strandsPerRun), 0)
    requires ButterflyRunAfter(Count(strandsPerRun), i, m.next, butterfliesPerStrand, strandsPerRun, lengths) == Success(b)
    ensures ButterflyRunsAfter(i + 1, strandsPerRun, butterfliesPerStrand, lengths) == Success(AddRun(m, b))
    ensures ModelOk(AddRun(m, b), i + 1, Count(strandsPerRun), 0)
  {
    ButterflyRunAfterOk(Count(strandsPerRun), i, m.next, butterfliesPerStrand, strandsPerRun, lengths);
    ButterflyRunsAfterNext(i, strandsPerRun, butterfliesPerStrand, lengths, m, b);
    ButterflyModelStep(m, i, Count(strandsPerRun), b, lengths);
  }

  lemma {:induction false} ButterflyRunsAfterOk(i: nat, strandsPerRun: int, butterfliesPerStrand: int, lengths: map<int, int>)
    ensures var r := ButterflyRunsAfter(i, strandsPerRun, butterfliesPerStrand, lengths);
            r.Success? ==> ModelOk(r.value, i, Count(strandsPerRun), 0)
  {
    if i > 0 && ButterflyRunsAfter(i, strandsPerRun, butterfliesPerStrand, lengths).Success? {
      ButterflyRunsAfterOk(i - 1, strandsPerRun, butterfliesPerStrand, lengths);
      var m := ButterflyRunsAfter(i - 1, strandsPerRun, butterfliesPerStrand, lengths).value;
      var b := ButterflyRunAfter(Count(strandsPerRun), i - 1, m.next, butterfliesPerStrand, strandsPerRun, lengths).value;
      ButterflyRunsAfterStepOk(i - 1, strandsPerRun, butterfliesPerStrand, lengths, m, b);
    }
  }

  /** One more flower run keeps ModelOk, with one more flower run counted. */
  lemma FlowerRunsAfterStepOk(i: nat, m: ModelBuild, nb: nat, spr: nat, nf: nat, lengths: map<int, int>,
                              m': ModelBuild, b: RunBuild)
    requires FlowerRunsAfter(i, m, lengths) == Success(m') && ModelOk(m', nb, spr, nf + i)
    requires FlowerRunAfter(1, |m'.runs|, m'.next, lengths) == Success(b)
    ensures FlowerRunsAfter(i + 1, m, lengths) == Success(AddRun(m', b))
    ensures ModelOk(AddRun(m', b), nb, spr, nf + i + 1)
  {
    FlowerRunAfterOk(1, |m'.runs|, m'.next, lengths);
    FlowerRunsAfterNext(i, m, lengths, m', b);
    FlowerModelStep(m', nb, spr, nf + i, b, lengths);
  }

  lemma {:induction false} FlowerRunsAfterOk(i: nat, m: ModelBuild, nb: nat, spr: nat, nf: nat, lengths: map<int, int>)
    requires ModelOk(m, nb, spr, nf)
    ensures var r := FlowerRunsAfter(i, m, lengths);
            r.Success? ==> ModelOk(r.value, nb, spr, nf + i)
  {
    if i > 0 && FlowerRunsAfter(i, m, lengths).Success? {
      FlowerRunsAfterOk(i - 1, m, nb, spr, nf, lengths);
      var m' := FlowerRunsAfter(i - 1, m, lengths).value;
      var b := FlowerRunAfter(1, |m'.runs|, m'.next, lengths).value;
      FlowerRunsAfterStepOk(i - 1, m, nb, spr, nf, lengths, m', b);
    }
  }

  /** Everything ModelOk states holds of the model createModel builds. */
  lemma CreateModelOk(numRuns: int, strandsPerRun: int, butterfliesPerStrand: int, flowerRuns: int, lengths: map<int, int>)
    ensures var r := CreateModelSpec(numRuns, strandsPerRun, butterfliesPerStrand, flowerRuns, lengths);
            r.Success? ==> numRuns >= 0 && ModelOk(r.value, numRuns, Count(strandsPerRun), Count(flowerRuns))
  {
    if numRuns >= 0 {
      ButterflyRunsAfterOk(numRuns, strandsPerRun, butterfliesPerStrand, lengths);
      var m := ButterflyRunsAfter(numRuns, strandsPerRun, butterfliesPerStrand, lengths);
      if m.Success? {
        FlowerRunsAfterOk(Count(flowerRuns), m.value, numRuns, Count(strandsPerRun), 0, lengths);
      }
    }
  }

  /**
   * The fixture objects hold consecutive blocks of `points`: the k-th butterfly
   * the k-th block of ButterflyPointCount points, and the k-th flower the k-th
   * block of FlowerPointCount points after all butterflies.
   */
  ghost predicate FixturesOwnBlocks(points: seq<int>, bs: seq<Butterfly>, fs: seq<Flower>)
    reads bs, fs
  {
    && (forall k :: 0 <= k < |bs| ==>
          var lo := ButterflyPointCount * k;
          lo + ButterflyPointCount <= |points| && bs[k].allPoints == points[lo..lo + ButterflyPointCount])
    && (forall k :: 0 <= k < |fs| ==>
          var lo := ButterflyPointCount * |bs| + FlowerPointCount * k;
          lo + FlowerPointCount <= |points| && fs[k].allPoints == points[lo..lo + FlowerPointCount])
  }

  /** The built fixture objects of a finished model hold the model's points, in creation order. */
  lemma FixturesHoldModelPoints(m: ModelBuild, nb: nat, spr: nat, nf: nat, bs: seq<Butterfly>, fs: seq<Flower>)
    requires ModelOk(m, nb, spr, nf) && m.butterflies == ButterflyInfos(bs) && m.flowers == FlowerInfos(fs)
    requires Built(bs, fs)
    ensures FixturesOwnBlocks(m.points, bs, fs)
  {
    forall k | 0 <= k < |bs|
      ensures var lo := ButterflyPointCount * k;
              lo + ButterflyPointCount <= |m.points| && bs[k].allPoints == m.points[lo..lo + ButterflyPointCount]
    {
      assert m.butterflies[k].firstPoint == bs[k].firstPoint;
      RangeSlice(0, |m.points|, ButterflyPointCount * k, ButterflyPointCount * k + ButterflyPointCount);
    }
    forall k | 0 <= k < |fs|
      ensures var lo := ButterflyPointCount * |bs| + FlowerPointCount * k;
              lo + FlowerPointCount <= |m.points| && fs[k].allPoints == m.points[lo..lo + FlowerPointCount]
    {
      assert m.flowers[k].firstPoint == fs[k].firstPoint;
      var lo := ButterflyPointCount * |bs| + FlowerPointCount * k;
      RangeSlice(0, |m.points|, lo, lo + FlowerPointCount);
    }
  }

  /** What CreateModel leaves in the fixture lists, when they are built, holds exactly its point list. */
  lemma CreatedFixturesHoldPoints(numRuns: int, strandsPerRun: int, butterfliesPerStrand: int, flowerRuns: int,
                                  lengths: map<int, int>, bs: seq<Butterfly>, fs: seq<Flower>)
    requires CreateModelSpec(numRuns, strandsPerRun, butterfliesPerStrand, flowerRuns, lengths).Success?
    requires var m := CreateModelSpec(numRuns, strandsPerRun, butterfliesPerStrand, flowerRuns, lengths).value;
             m.butterflies == ButterflyInfos(bs) && m.flowers == FlowerInfos(fs)
    requires Built(bs, fs)
    ensures FixturesOwnBlocks(CreateModelSpec(numRuns, strandsPerRun, butterfliesPerStrand, flowerRuns, lengths).value.points,
                              bs, fs)
  {
    CreateModelOk(numRuns, strandsPerRun, butterfliesPerStrand, flowerRuns, lengths);
    FixturesHoldModelPoints(CreateModelSpec(numRuns, strandsPerRun, butterfliesPerStrand, flowerRuns, lengths).value,
                            numRuns, Count(strandsPerRun), Count(flowerRuns), bs, fs);
  }

  /** After i butterfly runs, i * strandsPerRun strand IDs have been allocated. */
  lemma ButterflyRunsAfterStrands(i: nat, strandsPerRun: int, butterfliesPerStrand: int, lengths: map<int, int>)
    ensures var r := ButterflyRunsAfter(i, strandsPerRun, butterfliesPerStrand, lengths);
            r.Success? ==> r.value.next.strand == i * Count(strandsPerRun)
  {
    ButterflyRunsAfterOk(i, strandsPerRun, butterfliesPerStrand, lengths);
  }

  lemma {:induction false} ButterflyRunsAfterSucceeds(i: nat, strandsPerRun: int, butterfliesPerStrand: int, lengths: map<int, int>)
    ensures ButterflyRunsAfter(i, strandsPerRun, butterfliesPerStrand, lengths).Success?
        <==> (i == 0 || Count(strandsPerRun) <= CurvesPerRun) && LengthsConfigured(lengths, 0, i * Count(strandsPerRun))
  {
    if i > 0 {
      var spr := Count(strandsPerRun);
      var before := (i - 1) * spr;
      MulSucc(i - 1, spr);
      ButterflyRunsAfterSucceeds(i - 1, strandsPerRun, butterfliesPerStrand, lengths);
      LengthsConfiguredSplit(lengths, 0, before, spr);
      var prev := ButterflyRunsAfter(i - 1, strandsPerRun, butterfliesPerStrand, lengths);
      if prev.Success? {
        ButterflyRunsAfterStrands(i - 1, strandsPerRun, butterfliesPerStrand, lengths);
        ButterflyRunAfterSucceeds(spr, i - 1, prev.value.next, butterfliesPerStrand, strandsPerRun, lengths);
      }
    }
  }

  lemma {:induction false} FlowerRunsAfterSucceeds(i: nat, m: ModelBuild, nb: nat, spr: nat, nf: nat, lengths: map<int, int>)
    requires ModelOk(m, nb, spr, nf)
    ensures FlowerRunsAfter(i, m, lengths).Success? <==> LengthsConfigured(lengths, |m.strands|, i)
  {
    if i > 0 {
      FlowerRunsAfterSucceeds(i - 1, m, nb, spr, nf, lengths);
      LengthsConfiguredSplit(lengths, |m.strands|, i - 1, 1);
      var prev := FlowerRunsAfter(i - 1, m, lengths);
      if prev.Success? {
        FlowerRunsAfterOk(i - 1, m, nb, spr, nf, lengths);
        FlowerRunAfterSucceeds(1, |prev.value.runs|, prev.value.next, lengths);
      }
    }
  }

  /**
   * createModel succeeds exactly when numRuns is a valid list capacity, the
   * butterfly runs need at most the two curves a run has, and every strand ID
   * it allocates has a configured length.
   */
  lemma CreateModelSucceeds(numRuns: int, strandsPerRun: int, butterfliesPerStrand: int, flowerRuns: int, lengths: map<int, int>)
    ensures CreateModelSpec(numRuns, strandsPerRun, butterfliesPerStrand, flowerRuns, lengths).Success?
        <==> && numRuns >= 0
             && (numRuns == 0 || Count(strandsPerRun) <= CurvesPerRun)
             && LengthsConfigured(lengths, 0, numRuns * Count(strandsPerRun) + Count(flowerRuns))
  {
    if numRuns >= 0 {
      var spr := Count(strandsPerRun);
      ButterflyRunsAfterSucceeds(numRuns, strandsPerRun, butterfliesPerStrand, lengths);
      LengthsConfiguredSplit(lengths, 0, numRuns * spr, Count(flowerRuns));
      var m := ButterflyRunsAfter(numRuns, strandsPerRun, butterfliesPerStrand, lengths);
      if m.Success? {
        ButterflyRunsAfterOk(numRuns, strandsPerRun, butterfliesPerStrand, lengths);
        FlowerRunsAfterSucceeds(Count(flowerRuns), m.value, numRuns, spr, 0, lengths);
      }
    }
  }

  /**
   * The application's createModel(3, 4, 10) always fails: four strands per
   * run need a third curve. When strands 0 to 2 all have lengths, it is
   * strand 2's curve lookup that fails.
   */
  lemma AppConfigurationFails(flowerRuns: int, lengths: map<int, int>)
    ensures var r := CreateModelSpec(3, 4, 10, flowerRuns, lengths);
            r.Failure? && (LengthsConfigured(lengths, 0, 3) ==> r.error == MissingCurve(2))
  {
    CreateModelSucceeds(3, 4, 10, flowerRuns, lengths);
    var first := ButterflyRunAfter(4, 0, EmptyModel.next, 10, 4, lengths);
    ButterflyRunAfterSucceeds(4, 0, EmptyModel.next, 10, 4, lengths);
    ButterflyRunAfterError(4, 0, EmptyModel.next, 10, 4, lengths);
    assert ButterflyRunsAfter(1, 4, 10, lengths) == Failure(first.error);
    ButterflyRunsFailurePersists(1, 3, 4, 10, lengths);
  }
}
