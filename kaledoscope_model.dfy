/**
 * The construction itself, as KaledoscopeModel performs it: the process-wide
 * lists it keeps in static fields, the Strand and Run constructors that append
 * to them, and createModel. Each method is proved to build exactly what the
 * corresponding function of module Topology describes, so the lemmas proved
 * there are properties of this construction.
 */
module KaledoscopeBuild {
  import opened Common
  import opened Fixtures
  import opened Topology

  class KaledoscopeModel {
    var allButterflies: seq<Butterfly>
    var allFlowers: seq<Flower>
    var allRuns: seq<Run>
    var allStrands: seq<Strand>
    var numStrandsPerRun: int
    /** LED points created so far; the next point created gets this index. */
    var pointsCreated: int

    constructor ()
      ensures allButterflies == [] && allFlowers == [] && allRuns == [] && allStrands == []
      ensures numStrandsPerRun == 0 && pointsCreated == 0
    {
      allButterflies, allFlowers, allRuns, allStrands := [], [], [], [];
      numStrandsPerRun, pointsCreated := 0, 0;
    }

    /** The counters the next strand, fixture and point are numbered from. */
    function Counters(): Next
      reads this
    {
      Next(|allStrands|, |allButterflies|, |allFlowers|, pointsCreated)
    }

    /**
     * The lists have grown by exactly what the run `b` built, earlier entries
     * are kept, and allRuns and numStrandsPerRun are as they were.
     */
    ghost predicate Extended(b: RunBuild, strands0: seq<Strand>, butterflies0: seq<Butterfly>, flowers0: seq<Flower>,
                             runs0: seq<Run>, numStrandsPerRun0: int)
      reads this
    {
      && butterflies0 <= allButterflies && flowers0 <= allFlowers
      && Grown(b, allStrands, ButterflyInfos(allButterflies), FlowerInfos(allFlowers), Counters(),
               strands0, ButterflyInfos(butterflies0), FlowerInfos(flowers0))
      && allRuns == runs0 && numStrandsPerRun == numStrandsPerRun0
    }

    /** Every butterfly and flower in the lists has the layout its buildPoints produces. */
    ghost predicate FixturesBuilt()
      reads this, allButterflies, allFlowers, Petals(allFlowers)
    {
      Built(allButterflies, allFlowers)
    }

    /** The lists are those of the model under construction `m`. */
    ghost predicate Holds(m: ModelBuild)
      reads this
    {
      Matches(m, allRuns, allStrands, ButterflyInfos(allButterflies), FlowerInfos(allFlowers), Counters())
    }

    /**
     * The butterfly Strand constructor. `prevRunButterflies` is the size of the
     * parent run's butterfly list, which grows only once this strand is done.
     */
    method NewButterflyStrand(prevRunButterflies: int, strandId: int, numButterflies: int, strandRunIndex: int,
                              lengths: map<int, int>) returns (r: Result<Strand, Error>)
      modifies this
      ensures r == ButterflyStrandSpec(strandId, strandRunIndex, old(Counters()), lengths)
      ensures r.Failure? ==> unchanged(this)
      ensures old(FixturesBuilt()) ==> FixturesBuilt()
      ensures r.Success? ==>
        && old(allButterflies) <= allButterflies
        && ButterflyInfos(allButterflies) == ButterflyInfos(old(allButterflies))
             + NewButterflies(|r.value.butterflies|, strandRunIndex, CurveDenominator(numButterflies, numStrandsPerRun),
                              prevRunButterflies, old(pointsCreated))
        && pointsCreated == old(pointsCreated) + |r.value.allPoints|
        && allFlowers == old(allFlowers) && allRuns == old(allRuns) && allStrands == old(allStrands)
        && numStrandsPerRun == old(numStrandsPerRun)
    {
      if strandId !in lengths {
        return Failure(MissingStrandLength(strandId));
      }
      var configured := lengths[strandId];
      if !(0 <= strandRunIndex < CurvesPerRun) {
        return Failure(MissingCurve(strandRunIndex));
      }
      var den := CurveDenominator(numButterflies, numStrandsPerRun);
      var butterflies: seq<int> := [];
      ghost var made: seq<Butterfly> := [];
      var points: seq<int> := [];
      var i := 0;
      while i < configured
        invariant 0 <= i <= Count(configured)
        invariant butterflies == Range(old(|allButterflies|), i)
        invariant |points| == ButterflyPointCount * i && points == Range(old(pointsCreated), |points|)
        invariant pointsCreated == old(pointsCreated) + |points|
        invariant |made| == i && allButterflies == old(allButterflies) + made
        invariant old(FixturesBuilt()) ==> FixturesBuilt()
        invariant ButterflyInfos(allButterflies)
               == ButterflyInfos(old(allButterflies)) + NewButterflies(i, strandRunIndex, den, prevRunButterflies, old(pointsCreated))
        invariant allFlowers == old(allFlowers) && allRuns == old(allRuns) && allStrands == old(allStrands)
        invariant numStrandsPerRun == old(numStrandsPerRun)
      {
        RangeSnoc(old(|allButterflies|), i);
        RangeAppend(old(pointsCreated), |points|, ButterflyPointCount);
        butterflies := butterflies + [|allButterflies|];
        ghost var before := allButterflies;
        var butterfly := AddButterfly(i, prevRunButterflies, CurveParam(strandRunIndex, i, den));
        ButterflyInfosStep(before, butterfly, ButterflyInfos(old(allButterflies)), i, strandRunIndex, den, prevRunButterflies,
                           old(pointsCreated));
        made := made + [butterfly];
        points := points + butterfly.allPoints;
        i := i + 1;
      }
      assert i == Count(configured);
      r := Success(Strand(strandId, strandRunIndex, ButterflyStrand, butterflies, [], points));
    }

    /**
     * The flower Strand constructor. `prevRunFlowers` is the size of the parent
     * run's flower list, which grows only once this strand is done.
     */
    method NewFlowerStrand(prevRunFlowers: int, strandId: int, lengths: map<int, int>) returns (r: Result<Strand, Error>)
      modifies this
      ensures r == FlowerStrandSpec(strandId, old(Counters()), lengths)
      ensures r.Failure? ==> unchanged(this)
      ensures old(FixturesBuilt()) ==> FixturesBuilt()
      ensures r.Success? ==>
        && old(allFlowers) <= allFlowers
        && FlowerInfos(allFlowers) == FlowerInfos(old(allFlowers)) + NewFlowers(|r.value.flowers|, prevRunFlowers, old(pointsCreated))
        && pointsCreated == old(pointsCreated) + |r.value.allPoints|
        && allButterflies == old(allButterflies) && allRuns == old(allRuns) && allStrands == old(allStrands)
        && numStrandsPerRun == old(numStrandsPerRun)
    {
      if strandId !in lengths {
        return Failure(MissingStrandLength(strandId));
      }
      var configured := lengths[strandId];
      var flowers: seq<int> := [];
      ghost var made: seq<Flower> := [];
      var points: seq<int> := [];
      var i := 0;
      while i < configured
        invariant 0 <= i <= Count(configured)
        invariant flowers == Range(old(|allFlowers|), i)
        invariant |points| == FlowerPointCount * i && points == Range(old(pointsCreated), |points|)
        invariant pointsCreated == old(pointsCreated) + |points|
        invariant |made| == i && allFlowers == old(allFlowers) + made
        invariant old(FixturesBuilt()) ==> FixturesBuilt()
        invariant FlowerInfos(allFlowers) == FlowerInfos(old(allFlowers)) + NewFlowers(i, prevRunFlowers, old(pointsCreated))
        invariant allButterflies == old(allButterflies) && allRuns == old(allRuns) && allStrands == old(allStrands)
        invariant numStrandsPerRun == old(numStrandsPerRun)
      {
        RangeSnoc(old(|allFlowers|), i);
        RangeAppend(old(pointsCreated), |points|, FlowerPointCount);
        flowers := flowers + [|allFlowers|];
        ghost var before := allFlowers;
        var flower := AddFlower(i, prevRunFlowers);
        FlowerInfosStep(before, flower, FlowerInfos(old(allFlowers)), i, prevRunFlowers, old(pointsCreated));
        made := made + [flower];
        points := points + flower.allPoints;
        i := i + 1;
      }
      assert i == Count(configured);
      r := Success(Strand(strandId, 0, FlowerStrand, [], flowers, points));
    }

    /**
     * Creating butterfly i of a strand and adding it to allButterflies: the
     * butterfly takes the next ButterflyPointCount points.
     */
    method AddButterfly(i: int, prevRunButterflies: int, placement: CurveParam) returns (butterfly: Butterfly)
      modifies this
      ensures allButterflies == old(allButterflies) + [butterfly]
      ensures butterfly.strandIndex == i && butterfly.runIndex == i + prevRunButterflies
      ensures butterfly.placement == placement && butterfly.firstPoint == old(pointsCreated)
      ensures butterfly.Valid() && butterfly.allPoints == Range(old(pointsCreated), ButterflyPointCount)
      ensures old(FixturesBuilt()) ==> FixturesBuilt()
      ensures pointsCreated == old(pointsCreated) + ButterflyPointCount
      ensures allFlowers == old(allFlowers) && allRuns == old(allRuns) && allStrands == old(allStrands)
      ensures numStrandsPerRun == old(numStrandsPerRun)
    {
      butterfly := new Butterfly(i, i + prevRunButterflies, placement, pointsCreated);
      allButterflies := allButterflies + [butterfly];
      pointsCreated := pointsCreated + ButterflyPointCount;
    }

    /**
     * Creating flower i of a strand and adding it to allFlowers: the flower
     * takes the next FlowerPointCount points.
     */
    method AddFlower(i: int, prevRunFlowers: int) returns (flower: Flower)
      modifies this
      ensures allFlowers == old(allFlowers) + [flower]
      ensures flower.strandIndex == i && flower.runIndex == i + prevRunFlowers && flower.firstPoint == old(pointsCreated)
      ensures flower.Valid() && flower.allPoints == Range(old(pointsCreated), FlowerPointCount)
      ensures old(FixturesBuilt()) ==> FixturesBuilt()
      ensures pointsCreated == old(pointsCreated) + FlowerPointCount
      ensures allButterflies == old(allButterflies) && allRuns == old(allRuns) && allStrands == old(allStrands)
      ensures numStrandsPerRun == old(numStrandsPerRun)
    {
      flower := new Flower(i, i + prevRunFlowers, pointsCreated);
      allFlowers := allFlowers + [flower];
      pointsCreated := pointsCreated + FlowerPointCount;
    }

    /** Adding a finished strand to allStrands. */
    method AppendStrand(s: Strand)
      modifies this
      ensures allStrands == old(allStrands) + [s]
      ensures allButterflies == old(allButterflies) && allFlowers == old(allFlowers) && allRuns == old(allRuns)
      ensures numStrandsPerRun == old(numStrandsPerRun) && pointsCreated == old(pointsCreated)
      ensures old(FixturesBuilt()) ==> FixturesBuilt()
    {
      allStrands := allStrands + [s];
    }

    /** Adding a finished run to allRuns. */
    method AppendRun(run: Run)
      modifies this
      ensures allRuns == old(allRuns) + [run]
      ensures allButterflies == old(allButterflies) && allFlowers == old(allFlowers) && allStrands == old(allStrands)
      ensures numStrandsPerRun == old(numStrandsPerRun) && pointsCreated == old(pointsCreated)
      ensures old(FixturesBuilt()) ==> FixturesBuilt()
    {
      allRuns := allRuns + [run];
    }

    /** The butterfly Run constructor: numStrands strands, strand i on curve i, each taking the next strand ID. */
    method NewButterflyRun(runIndex: int, numStrands: int, butterfliesPerStrand: int, lengths: map<int, int>)
      returns (r: Result<Run, Error>)
      modifies this
      ensures r == RunResult(ButterflyRunAfter(Count(numStrands), runIndex, old(Counters()), butterfliesPerStrand,
                                               old(numStrandsPerRun), lengths))
      ensures r.Success? ==>
        Extended(ButterflyRunAfter(Count(numStrands), runIndex, old(Counters()), butterfliesPerStrand,
                                   old(numStrandsPerRun), lengths).value,
                 old(allStrands), old(allButterflies), old(allFlowers), old(allRuns), old(numStrandsPerRun))
      ensures old(FixturesBuilt()) ==> FixturesBuilt()
    {
      var run := Run(runIndex, ButterflyRun, [], [], [], []);
      ghost var built := RunBuild(run, [], Counters(), [], []);
      var i := 0;
      while i < numStrands
        invariant 0 <= i <= Count(numStrands)
        invariant ButterflyRunAfter(i, runIndex, old(Counters()), butterfliesPerStrand, old(numStrandsPerRun), lengths)
               == Success(built)
        invariant built.run == run
        invariant Extended(built, old(allStrands), old(allButterflies), old(allFlowers), old(allRuns), old(numStrandsPerRun))
        invariant old(FixturesBuilt()) ==> FixturesBuilt()
      {
        var next := ButterflyRunStep(run, built, i, runIndex, butterfliesPerStrand, lengths, old(Counters()),
                                     old(allStrands), old(allButterflies), old(allFlowers));
        if next.Failure? {
          ButterflyRunFailurePersists(i + 1, Count(numStrands), runIndex, old(Counters()), butterfliesPerStrand,
                                      old(numStrandsPerRun), lengths);
          return Failure(next.error);
        }
        built := ButterflyRunAfter(i + 1, runIndex, old(Counters()), butterfliesPerStrand, old(numStrandsPerRun), lengths).value;
        run := next.value;
        i := i + 1;
      }
      assert i == Count(numStrands);
      r := Success(run);
    }

    /**
     * One pass of the butterfly Run constructor's loop: strand i is built on
     * curve i, appended to allStrands, and its butterflies and points are
     * added to the run.
     */
    method ButterflyRunStep(run: Run, ghost b: RunBuild, i: nat, runIndex: int, butterfliesPerStrand: int,
                            lengths: map<int, int>, ghost c: Next, ghost strands0: seq<Strand>,
                            ghost butterflies0: seq<Butterfly>, ghost flowers0: seq<Flower>)
      returns (r: Result<Run, Error>)
      requires ButterflyRunAfter(i, runIndex, c, butterfliesPerStrand, numStrandsPerRun, lengths) == Success(b)
      requires b.run == run && Extended(b, strands0, butterflies0, flowers0, allRuns, numStrandsPerRun)
      modifies this
      ensures r == RunResult(ButterflyRunAfter(i + 1, runIndex, c, butterfliesPerStrand, old(numStrandsPerRun), lengths))
      ensures r.Success? ==>
        Extended(ButterflyRunAfter(i + 1, runIndex, c, butterfliesPerStrand, old(numStrandsPerRun), lengths).value,
                 strands0, butterflies0, flowers0, old(allRuns), old(numStrandsPerRun))
      ensures old(FixturesBuilt()) ==> FixturesBuilt()
    {
      ghost var strands1, butterflies1 := allStrands, ButterflyInfos(allButterflies);
      var strand := NewButterflyStrand(|run.butterflies|, |allStrands|, butterfliesPerStrand, i, lengths);
      if strand.Failure? {
        return Failure(strand.error);
      }
      var s := strand.value;
      ButterflyGrownStep(b, s, i, CurveDenominator(butterfliesPerStrand, numStrandsPerRun), strands1, butterflies1,
                         FlowerInfos(allFlowers), strands0, ButterflyInfos(butterflies0), FlowerInfos(flowers0));
      ButterflyRunAfterNext(i, runIndex, c, butterfliesPerStrand, numStrandsPerRun, lengths, b, s);
      AppendStrand(s);
      r := Success(run.(butterflies := run.butterflies + s.butterflies, allPoints := run.allPoints + s.allPoints));
    }

    /** The flower Run constructor: numStrands flower strands, each taking the next strand ID. */
    method NewFlowerRun(runIndex: int, numStrands: int, lengths: map<int, int>) returns (r: Result<Run, Error>)
      modifies this
      ensures r == RunResult(FlowerRunAfter(Count(numStrands), runIndex, old(Counters()), lengths))
      ensures r.Success? ==>
        Extended(FlowerRunAfter(Count(numStrands), runIndex, old(Counters()), lengths).value,
                 old(allStrands), old(allButterflies), old(allFlowers), old(allRuns), old(numStrandsPerRun))
      ensures old(FixturesBuilt()) ==> FixturesBuilt()
    {
      var run := Run(runIndex, FlowerRun, [], [], [], []);
      ghost var built := RunBuild(run, [], Counters(), [], []);
      var i := 0;
      while i < numStrands
        invariant 0 <= i <= Count(numStrands)
        invariant FlowerRunAfter(i, runIndex, old(Counters()), lengths) == Success(built)
        invariant built.run == run
        invariant Extended(built, old(allStrands), old(allButterflies), old(allFlowers), old(allRuns), old(numStrandsPerRun))
        invariant old(FixturesBuilt()) ==> FixturesBuilt()
      {
        var next := FlowerRunStep(run, built, i, runIndex, lengths, old(Counters()), old(allStrands), old(allButterflies),
                                  old(allFlowers));
        if next.Failure? {
          FlowerRunFailurePersists(i + 1, Count(numStrands), runIndex, old(Counters()), lengths);
          return Failure(next.error);
        }
        built := FlowerRunAfter(i + 1, runIndex, old(Counters()), lengths).value;
        run := next.value;
        i := i + 1;
      }
      assert i == Count(numStrands);
      r := Success(run);
    }

    /**
     * One pass of the flower Run constructor's loop: strand i is built,
     * appended to allStrands, and its flowers and points are added to the run.
     */
    method FlowerRunStep(run: Run, ghost b: RunBuild, i: nat, runIndex: int, lengths: map<int, int>, ghost c: Next,
                         ghost strands0: seq<Strand>, ghost butterflies0: seq<Butterfly>, ghost flowers0: seq<Flower>)
      returns (r: Result<Run, Error>)
      requires FlowerRunAfter(i, runIndex, c, lengths) == Success(b)
      requires b.run == run && Extended(b, strands0, butterflies0, flowers0, allRuns, numStrandsPerRun)
      modifies this
      ensures r == RunResult(FlowerRunAfter(i + 1, runIndex, c, lengths))
      ensures r.Success? ==>
        Extended(FlowerRunAfter(i + 1, runIndex, c, lengths).value, strands0, butterflies0, flowers0, old(allRuns),
                 old(numStrandsPerRun))
      ensures old(FixturesBuilt()) ==> FixturesBuilt()
    {
      ghost var strands1, flowers1 := allStrands, FlowerInfos(allFlowers);
      var strand := NewFlowerStrand(|run.flowers|, |allStrands|, lengths);
      if strand.Failure? {
        return Failure(strand.error);
      }
      var s := strand.value;
      FlowerGrownStep(b, s, strands1, ButterflyInfos(allButterflies), flowers1, strands0, ButterflyInfos(butterflies0),
                      FlowerInfos(flowers0));
      FlowerRunAfterNext(i, runIndex, c, lengths, b, s);
      AppendStrand(s);
      r := Success(run.(flowers := run.flowers + s.flowers, allPoints := run.allPoints + s.allPoints));
    }

    /**
     * The butterfly-run loop of createModel, run on the emptied lists: run i
     * gets run index i and numStrandsPerRun strands. The result is the point
     * list built so far.
     */
    method AddButterflyRuns(numRuns: nat, butterfliesPerStrand: int, lengths: map<int, int>)
      returns (r: Result<seq<int>, Error>)
      requires Holds(EmptyModel)
      modifies this
      ensures r == ModelPoints(ButterflyRunsAfter(numRuns, old(numStrandsPerRun), butterfliesPerStrand, lengths))
      ensures r.Success? ==>
        && Holds(ButterflyRunsAfter(numRuns, old(numStrandsPerRun), butterfliesPerStrand, lengths).value)
        && numStrandsPerRun == old(numStrandsPerRun)
        && FixturesBuilt()
    {
      var points: seq<int> := [];
      ghost var model := EmptyModel;
      var i := 0;
      while i < numRuns
        invariant 0 <= i <= numRuns
        invariant ButterflyRunsAfter(i, old(numStrandsPerRun), butterfliesPerStrand, lengths) == Success(model)
        invariant Holds(model) && model.points == points
        invariant FixturesBuilt()
        invariant numStrandsPerRun == old(numStrandsPerRun)
      {
        ghost var before := Counters();
        var run := NewButterflyRun(i, numStrandsPerRun, butterfliesPerStrand, lengths);
        if run.Failure? {
          ButterflyRunsFailurePersists(i + 1, numRuns, old(numStrandsPerRun), butterfliesPerStrand, lengths);
          return Failure(run.error);
        }
        ghost var b := ButterflyRunAfter(Count(old(numStrandsPerRun)), i, before, butterfliesPerStrand, old(numStrandsPerRun),
                                         lengths).value;
        ButterflyRunsAfterNext(i, old(numStrandsPerRun), butterfliesPerStrand, lengths, model, b);
        AppendRun(run.value);
        points := points + run.value.allPoints;
        AddRunMatches(model, b, allRuns, allStrands, ButterflyInfos(allButterflies), FlowerInfos(allFlowers), Counters());
        model := AddRun(model, b);
        i := i + 1;
      }
      r := Success(points);
    }

    /**
     * The flower-run loop of createModel, continuing the model m whose point
     * list is `points`: each flower run has one strand and the next run index.
     */
    method AddFlowerRuns(flowerRuns: int, ghost m: ModelBuild, points: seq<int>, lengths: map<int, int>)
      returns (r: Result<seq<int>, Error>)
      requires Holds(m) && m.points == points
      modifies this
      ensures r == ModelPoints(FlowerRunsAfter(Count(flowerRuns), m, lengths))
      ensures r.Success? ==>
        && Holds(FlowerRunsAfter(Count(flowerRuns), m, lengths).value)
        && numStrandsPerRun == old(numStrandsPerRun)
      ensures old(FixturesBuilt()) ==> FixturesBuilt()
    {
      var allPoints := points;
      ghost var model := m;
      var j := 0;
      while j < flowerRuns
        invariant 0 <= j <= Count(flowerRuns)
        invariant FlowerRunsAfter(j, m, lengths) == Success(model)
        invariant Holds(model) && model.points == allPoints
        invariant old(FixturesBuilt()) ==> FixturesBuilt()
        invariant numStrandsPerRun == old(numStrandsPerRun)
      {
        ghost var before := Counters();
        var run := NewFlowerRun(|allRuns|, 1, lengths);
        if run.Failure? {
          FlowerRunsFailurePersists(j + 1, Count(flowerRuns), m, lengths);
          return Failure(run.error);
        }
        ghost var b := FlowerRunAfter(1, |model.runs|, before, lengths).value;
        FlowerRunsAfterNext(j, m, lengths, model, b);
        AppendRun(run.value);
        allPoints := allPoints + run.value.allPoints;
        AddRunMatches(model, b, allRuns, allStrands, ButterflyInfos(allButterflies), FlowerInfos(allFlowers), Counters());
        model := AddRun(model, b);
        j := j + 1;
      }
      assert j == Count(flowerRuns);
      r := Success(allPoints);
    }

    /**
     * createModel(numRuns, strandsPerRun, butterfliesPerStrand), with
     * `flowerRuns` flower runs and `lengths` the configured strand lengths.
     * The result is the model's point list; the new model numbers its points
     * from 0.
     */
    method CreateModel(numRuns: int, strandsPerRun: int, butterfliesPerStrand: int, flowerRuns: int, lengths: map<int, int>)
      returns (r: Result<seq<int>, Error>)
      modifies this
      ensures r == ModelPoints(CreateModelSpec(numRuns, strandsPerRun, butterfliesPerStrand, flowerRuns, lengths))
      ensures numRuns < 0 ==> unchanged(this)
      ensures r.Success? ==>
        && Holds(CreateModelSpec(numRuns, strandsPerRun, butterfliesPerStrand, flowerRuns, lengths).value)
        && numStrandsPerRun == strandsPerRun
        && FixturesBuilt()
      ensures r.Success? ==> FixturesOwnBlocks(r.value, allButterflies, allFlowers)
    {
      if numRuns < 0 {
        return Failure(IllegalCapacity(numRuns));
      }
      allRuns, allStrands, allButterflies, allFlowers := [], [], [], [];
      numStrandsPerRun := strandsPerRun;
      pointsCreated := 0;
      r := AddButterflyRuns(numRuns, butterfliesPerStrand, lengths);
      if r.Success? {
        r := AddFlowerRuns(flowerRuns, ButterflyRunsAfter(numRuns, strandsPerRun, butterfliesPerStrand, lengths).value,
                           r.value, lengths);
      }
      if r.Success? {
        CreatedFixturesHoldPoints(numRuns, strandsPerRun, butterfliesPerStrand, flowerRuns, lengths, allButterflies,
                                  allFlowers);
      }
    }
  }
}
