/**
 * Output.configurePixliteOutput: the Art-Net output mapping. Each of the
 * mapping parameters output1 .. output16 lists strand IDs; the listed
 * strands' points, in wire order, are cut into universes of at most 170
 * pixels, the universes are numbered from 0 across all outputs, and one
 * ArtSync packet follows the data.
 */
module Output {
  import opened Common
  import opened JavaText
  import opened Fixtures
  import opened Topology

  /** The mapping parameters read: output1 .. output16. */
  const OutputsRead := 16
  /** Pixels per universe: 170 RGB pixels fill 510 of the 512 channels of an ArtDmx packet. */
  const UniverseSize := 170
  const ChannelsPerPixel := 3
  const DmxChannels := 512

  /** Where a packet is sent: the resolved controller address and its port. */
  datatype Endpoint = Endpoint(host: string, port: int)

  /**
   * The packets handed to the engine's output. A data packet whose address
   * did not resolve has no destination; the sync packet always has its
   * port and has a host only when the address resolved.
   */
  datatype Datagram =
    | ArtDmx(universe: int, indices: seq<int>, dataLength: int, destination: Option<Endpoint>)
    | ArtSync(port: int, host: Option<string>)

  /** The exceptions that end configurePixliteOutput early. */
  datatype OutputError =
    | NumberFormat(text: string)
    | IndexOutOfBounds(index: int)

  function Min(a: int, b: int): int
  {
    if a <= b then a else b
  }

  // ---------------------------------------------------------------------------
  // Wire order
  // ---------------------------------------------------------------------------

  /**
   * The points of the strands listed by `ids`, in listed order. An ID past
   * the last strand is skipped; a token that is not a number, or a negative
   * ID, is an error at that token.
   */
  function WireOrder(ids: seq<string>, strands: seq<Strand>): Result<seq<int>, OutputError>
  {
    if |ids| == 0 then Success([])
    else
      match WireOrder(ids[..|ids| - 1], strands)
      case Failure(e) => Failure(e)
      case Success(points) =>
        var id := ids[|ids| - 1];
        match ParseInt(id)
        case None => Failure(NumberFormat(id))
        case Some(strandId) =>
          if strandId >= |strands| then Success(points)
          else if strandId < 0 then Failure(IndexOutOfBounds(strandId))
          else Success(points + strands[strandId].allPoints)
  }

  /** A token the ID loop accepts: a number that is not negative. */
  predicate IdOk(id: string)
  {
    ParseInt(id).Some? && ParseInt(id).value >= 0
  }

  /** The points one accepted token contributes: its strand's points, or none past the last strand. */
  function StrandPoints(id: string, strands: seq<Strand>): seq<int>
    requires IdOk(id)
  {
    var strandId := ParseInt(id).value;
    if strandId < |strands| then strands[strandId].allPoints else []
  }

  lemma {:induction false} WireOrderFailurePersists(ids: seq<string>, i: nat, strands: seq<Strand>)
    requires i <= |ids|
    requires WireOrder(ids[..i], strands).Failure?
    ensures WireOrder(ids, strands) == WireOrder(ids[..i], strands)
  {
    if i < |ids| {
      assert ids[..|ids| - 1][..i] == ids[..i];
      WireOrderFailurePersists(ids[..|ids| - 1], i, strands);
    } else {
      assert ids[..i] == ids;
    }
  }

  /** The ID loop fails exactly when some token is not a number or is negative. */
  lemma {:induction false} WireOrderSucceeds(ids: seq<string>, strands: seq<Strand>)
    ensures WireOrder(ids, strands).Success? <==> forall k :: 0 <= k < |ids| ==> IdOk(ids[k])
  {
    if |ids| > 0 {
      var init := ids[..|ids| - 1];
      WireOrderSucceeds(init, strands);
      assert forall k :: 0 <= k < |init| ==> init[k] == ids[k];
    }
  }

  /**
   * The wire order of two lists of IDs one after the other is the two wire
   * orders one after the other: so a repeated ID repeats its strand's points.
   */
  lemma {:induction false} WireOrderAppend(a: seq<string>, b: seq<string>, strands: seq<Strand>)
    requires WireOrder(a, strands).Success? && WireOrder(b, strands).Success?
    ensures WireOrder(a + b, strands) == Success(WireOrder(a, strands).value + WireOrder(b, strands).value)
  {
    if |b| == 0 {
      ConcatEmpty(a);
      ConcatEmpty(WireOrder(a, strands).value);
    } else {
      var init, last := b[..|b| - 1], b[|b| - 1];
      WireOrderInit(b, strands);
      WireOrderAppend(a, init, strands);
      InitLast(b);
      WireOrderAppendStep(a, init, last, strands);
    }
  }

  lemma WireOrderAppendStep(a: seq<string>, init: seq<string>, last: string, strands: seq<Strand>)
    requires WireOrder(a, strands).Success? && WireOrder(init, strands).Success? && IdOk(last)
    requires WireOrder(a + init, strands) == Success(WireOrder(a, strands).value + WireOrder(init, strands).value)
    ensures WireOrder(a + (init + [last]), strands)
         == Success(WireOrder(a, strands).value + WireOrder(init + [last], strands).value)
  {
    var pa, pi, x := WireOrder(a, strands).value, WireOrder(init, strands).value, StrandPoints(last, strands);
    ConcatAssociative(a, init, [last]);
    WireOrderSnoc(a + init, last, strands);
    WireOrderSnoc(init, last, strands);
    ConcatAssociative(pa, pi, x);
  }

  /** A list the ID loop accepts: all of it but the last token is accepted, and the last token adds its strand's points. */
  lemma WireOrderInit(ids: seq<string>, strands: seq<Strand>)
    requires |ids| > 0 && WireOrder(ids, strands).Success?
    ensures WireOrder(ids[..|ids| - 1], strands).Success? && IdOk(ids[|ids| - 1])
    ensures WireOrder(ids, strands).value
         == WireOrder(ids[..|ids| - 1], strands).value + StrandPoints(ids[|ids| - 1], strands)
  {
    assert WireOrder(ids[..|ids| - 1], strands).value + [] == WireOrder(ids[..|ids| - 1], strands).value;
  }

  /** One more accepted token appends its strand's points. */
  lemma WireOrderSnoc(ids: seq<string>, id: string, strands: seq<Strand>)
    requires WireOrder(ids, strands).Success? && IdOk(id)
    ensures WireOrder(ids + [id], strands) == Success(WireOrder(ids, strands).value + StrandPoints(id, strands))
  {
    assert (ids + [id])[..|ids|] == ids;
    assert WireOrder(ids, strands).value + [] == WireOrder(ids, strands).value;
  }

  /** One accepted token contributes exactly its strand's points, or nothing past the last strand. */
  lemma WireOrderSingle(id: string, strands: seq<Strand>)
    requires IdOk(id)
    ensures WireOrder([id], strands) == Success(StrandPoints(id, strands))
  {
    assert [id][..0] == [];
    assert [] + StrandPoints(id, strands) == StrandPoints(id, strands);
  }

  /**
   * A flower strand is sent whole: all five points of every flower, not only
   * the two addressable ones, block by block in the order the flowers were
   * made.
   */
  lemma FlowerStrandSent(id: string, strands: seq<Strand>, strandId: int, c: Next, lengths: map<int, int>, prevRun: int)
    requires ParseInt(id) == Some(strandId) && 0 <= strandId < |strands|
    requires FlowerStrandSpec(strandId, c, lengths).Success?
    requires strands[strandId] == FlowerStrandSpec(strandId, c, lengths).value
    ensures var s := strands[strandId];
            var made := NewFlowers(|s.flowers|, prevRun, c.point);
            && WireOrder([id], strands) == Success(s.allPoints)
            && |s.allPoints| == FlowerPointCount * |s.flowers|
            && forall i :: 0 <= i < |made| ==>
                 s.allPoints[FlowerPointCount * i .. FlowerPointCount * (i + 1)] == Range(made[i].firstPoint, FlowerPointCount)
  {
    WireOrderSingle(id, strands);
    FlowerStrandBlocks(strandId, c, lengths, prevRun);
  }

  /** The ID loop of configurePixliteOutput: parse each token and append the points of each strand it names. */
  method CollectWireOrder(ids: seq<string>, strands: seq<Strand>) returns (r: Result<seq<int>, OutputError>)
    ensures r == WireOrder(ids, strands)
  {
    var pointsWireOrder: seq<int> := [];
    for i := 0 to |ids|
      invariant WireOrder(ids[..i], strands) == Success(pointsWireOrder)
    {
      assert ids[..i + 1][..i] == ids[..i];
      var strandId := ParseInt(ids[i]);
      if strandId.None? {
        WireOrderFailurePersists(ids, i + 1, strands);
        return Failure(NumberFormat(ids[i]));
      }
      if strandId.value < |strands| {
        if strandId.value < 0 {
          WireOrderFailurePersists(ids, i + 1, strands);
          return Failure(IndexOutOfBounds(strandId.value));
        }
        pointsWireOrder := pointsWireOrder + strands[strandId.value].allPoints;
      }
    }
    assert ids[..|ids|] == ids;
    r := Success(pointsWireOrder);
  }

  // ---------------------------------------------------------------------------
  // Universes
  // ---------------------------------------------------------------------------

  /** The universes a wire of `count` points needs: count / 170 rounded up. */
  function NumUniverses(count: nat): nat
  {
    (count + UniverseSize - 1) / UniverseSize
  }

  /** The universe count is the least number of 170-pixel universes that hold every point. */
  lemma NumUniversesBounds(count: nat)
    ensures count == 0 <==> NumUniverses(count) == 0
    ensures count > 0 ==> UniverseSize * (NumUniverses(count) - 1) < count <= UniverseSize * NumUniverses(count)
  {
  }

  /** Universe u of a wire: its u-th run of 170 points; the last may be shorter. */
  function Universe(points: seq<int>, u: nat): seq<int>
    requires u < NumUniverses(|points|)
  {
    NumUniversesBounds(|points|);
    points[UniverseSize * u .. Min(UniverseSize * (u + 1), |points|)]
  }

  /**
   * Every universe but the last holds 170 points and the last holds what is
   * left, count - 170 * (n - 1), which is between 1 and 170.
   */
  lemma UniverseSizes(points: seq<int>, u: nat)
    requires u < NumUniverses(|points|)
    ensures var n := NumUniverses(|points|);
            && 0 < |Universe(points, u)| <= UniverseSize
            && UniverseSize * u + |Universe(points, u)| <= |points|
            && Universe(points, u) == points[UniverseSize * u .. UniverseSize * u + |Universe(points, u)|]
            && (u < n - 1 ==> |Universe(points, u)| == UniverseSize)
            && (u == n - 1 ==> |Universe(points, u)| == |points| - UniverseSize * (n - 1))
  {
    NumUniversesBounds(|points|);
  }

  /** The data packets of one output: universe u carries the u-th run of points, three channels per point. */
  function UniverseDatagrams(points: seq<int>, start: int, destination: Option<Endpoint>): (r: seq<Datagram>)
    ensures |r| == NumUniverses(|points|)
  {
    seq(NumUniverses(|points|), u requires 0 <= u < NumUniverses(|points|) => UniverseDatagram(points, start, destination, u))
  }

  /** The packet for universe u of a wire: numbered on from start, three channels per point. */
  function UniverseDatagram(points: seq<int>, start: int, destination: Option<Endpoint>, u: nat): Datagram
    requires u < NumUniverses(|points|)
  {
    ArtDmx(start + u, Universe(points, u), ChannelsPerPixel * |Universe(points, u)|, destination)
  }

  /** The point indices carried by the data packets of ds, in packet order. */
  function Indices(ds: seq<Datagram>): seq<int>
  {
    if |ds| == 0 then []
    else Indices(ds[..|ds| - 1]) + (if ds[|ds| - 1].ArtDmx? then ds[|ds| - 1].indices else [])
  }

  lemma {:induction false} IndicesUniversePrefix(points: seq<int>, start: int, destination: Option<Endpoint>, u: nat)
    requires u <= NumUniverses(|points|)
    ensures Indices(UniverseDatagrams(points, start, destination)[..u]) == points[..Min(UniverseSize * u, |points|)]
  {
    var ds := UniverseDatagrams(points, start, destination);
    NumUniversesBounds(|points|);
    if u > 0 {
      IndicesUniversePrefix(points, start, destination, u - 1);
      PrefixOfPrefix(ds, u - 1, u);
      UniverseSizes(points, u - 1);
      var lo := UniverseSize * (u - 1);
      var hi := lo + |Universe(points, u - 1)|;
      assert hi == Min(UniverseSize * u, |points|);
      PrefixJoin(points, lo, hi);
    }
  }

  /** Putting one output's universes back together gives exactly its wire order. */
  lemma UniversesJoin(points: seq<int>, start: int, destination: Option<Endpoint>)
    ensures Indices(UniverseDatagrams(points, start, destination)) == points
  {
    var ds := UniverseDatagrams(points, start, destination);
    IndicesUniversePrefix(points, start, destination, |ds|);
    NumUniversesBounds(|points|);
    assert ds[..|ds|] == ds;
  }

  /** Every data packet of one output fits an ArtDmx packet and they are for consecutive universes from start. */
  lemma UniverseDatagramsFit(points: seq<int>, start: int, destination: Option<Endpoint>)
    ensures var ds := UniverseDatagrams(points, start, destination);
            forall u :: 0 <= u < |ds| ==> Fits(ds[u], start + u, destination)
  {
    forall u | 0 <= u < NumUniverses(|points|) {
      UniverseSizes(points, u);
    }
  }

  /**
   * The point loop of configurePixliteOutput: the points are copied into a
   * buffer sized for the current universe; when it is full a packet is made
   * from it for universe univStartNum + curUnivOffset and a fresh buffer is
   * allocated, of the last universe's size when the next universe is the
   * last one. Returns the packets and the number of universes used.
   */
  method EmitUniverses(pointsWireOrder: seq<int>, univStartNum: int, destination: Option<Endpoint>)
    returns (datagrams: seq<Datagram>, curUnivOffset: nat)
    ensures datagrams == UniverseDatagrams(pointsWireOrder, univStartNum, destination)
    ensures curUnivOffset == NumUniverses(|pointsWireOrder|)
  {
    var count := |pointsWireOrder|;
    var numUniversesThisWire: int := NumUniverses(count);
    var lastUniverseCount := count - UniverseSize * (numUniversesThisWire - 1);
    var maxLedsPerUniverse := if count > UniverseSize then UniverseSize else count;
    BufferSizes(pointsWireOrder, 0);
    var thisUniverseIndices := new int[maxLedsPerUniverse];
    var curIndex := 0;
    curUnivOffset := 0;
    datagrams := [];
    for k := 0 to count
      invariant fresh(thisUniverseIndices)
      invariant curUnivOffset <= numUniversesThisWire
      invariant datagrams == UniverseDatagrams(pointsWireOrder, univStartNum, destination)[..curUnivOffset]
      invariant curUnivOffset < numUniversesThisWire ==>
        && k == UniverseSize * curUnivOffset + curIndex
        && thisUniverseIndices.Length == |Universe(pointsWireOrder, curUnivOffset)|
        && curIndex < thisUniverseIndices.Length
        && thisUniverseIndices[..curIndex] == Universe(pointsWireOrder, curUnivOffset)[..curIndex]
      invariant curUnivOffset == numUniversesThisWire ==> k == count
    {
      ghost var universe := Universe(pointsWireOrder, curUnivOffset);
      FillStep(pointsWireOrder, curUnivOffset, curIndex);
      thisUniverseIndices[curIndex] := pointsWireOrder[k];
      curIndex := curIndex + 1;
      assert thisUniverseIndices[..curIndex] == universe[..curIndex];
      if curIndex == UniverseSize || (curUnivOffset == numUniversesThisWire - 1 && curIndex == lastUniverseCount) {
        assert thisUniverseIndices[..] == universe by {
          assert thisUniverseIndices[..] == thisUniverseIndices[..curIndex];
          assert universe[..curIndex] == universe;
        }
        datagrams, thisUniverseIndices :=
          SendUniverse(pointsWireOrder, univStartNum, destination, datagrams, curUnivOffset, thisUniverseIndices);
        curUnivOffset := curUnivOffset + 1;
        curIndex := 0;
      }
    }
    assert UniverseDatagrams(pointsWireOrder, univStartNum, destination)[..curUnivOffset]
        == UniverseDatagrams(pointsWireOrder, univStartNum, destination);
  }

  /**
   * Sending a full buffer: the packet for universe u carries the buffer,
   * three channels per point, and the next buffer is allocated with the
   * size of the last universe when that one comes next, and of a full
   * universe (or the whole wire, when it fits one) otherwise.
   */
  method SendUniverse(points: seq<int>, start: int, destination: Option<Endpoint>, datagrams: seq<Datagram>, u: nat,
                      buffer: array<int>)
    returns (sent: seq<Datagram>, next: array<int>)
    requires u < NumUniverses(|points|)
    requires datagrams == UniverseDatagrams(points, start, destination)[..u]
    requires buffer[..] == Universe(points, u)
    ensures sent == UniverseDatagrams(points, start, destination)[..u + 1]
    ensures fresh(next) && (u + 1 < NumUniverses(|points|) ==> next.Length == |Universe(points, u + 1)|)
  {
    UniverseDatagramsSnoc(points, start, destination, u);
    sent := datagrams + [ArtDmx(start + u, buffer[..], buffer.Length * ChannelsPerPixel, destination)];
    var count := |points|;
    var numUniverses := NumUniverses(count);
    BufferSizes(points, u + 1);
    next := new int[if u + 1 == numUniverses - 1 then count - UniverseSize * (numUniverses - 1)
                    else if count > UniverseSize then UniverseSize else count];
  }

  /**
   * The buffer sizes configurePixliteOutput allocates: the last universe's
   * size before the last universe and the full size (or the whole wire when
   * it fits one universe) before every other.
   */
  lemma BufferSizes(points: seq<int>, u: nat)
    ensures var n := NumUniverses(|points|);
            u < n ==>
            |Universe(points, u)|
            == if u == n - 1 then |points| - UniverseSize * (n - 1)
               else if |points| > UniverseSize then UniverseSize else |points|
  {
    if u < NumUniverses(|points|) {
      UniverseSizes(points, u);
    }
  }

  /**
   * One point of the loop: point 170 * u + filled is the next point of
   * universe u, the source's test for sending the buffer holds exactly when
   * this point fills universe u, and the position then reached is where the
   * next universe starts, or the end of the wire after the last universe.
   */
  lemma FillStep(points: seq<int>, u: nat, filled: nat)
    requires u < NumUniverses(|points|)
    requires filled < |Universe(points, u)|
    ensures var n := NumUniverses(|points|);
            var full := filled + 1 == |Universe(points, u)|;
            && UniverseSize * u + filled < |points|
            && points[UniverseSize * u + filled] == Universe(points, u)[filled]
            && ((filled + 1 == UniverseSize || (u == n - 1 && filled + 1 == |points| - UniverseSize * (n - 1))) <==> full)
            && (full && u + 1 < n ==> UniverseSize * u + filled + 1 == UniverseSize * (u + 1))
            && (full && u + 1 == n ==> UniverseSize * u + filled + 1 == |points|)
  {
    UniverseSizes(points, u);
  }

  lemma UniverseDatagramsSnoc(points: seq<int>, start: int, destination: Option<Endpoint>, u: nat)
    requires u < NumUniverses(|points|)
    ensures UniverseDatagrams(points, start, destination)[..u + 1]
         == UniverseDatagrams(points, start, destination)[..u] + [UniverseDatagram(points, start, destination, u)]
  {
  }

  // ---------------------------------------------------------------------------
  // Outputs
  // ---------------------------------------------------------------------------

  /** The data packets made so far and the next universe number (curUniverseNum). */
  datatype Emitted = Emitted(datagrams: seq<Datagram>, nextUniverse: int)

  /**
   * One pass of the outputs loop over the mapping string s: an empty string
   * is passed over; otherwise its wire order is cut into universes numbered
   * on from e.nextUniverse.
   */
  function OutputStep(e: Emitted, s: string, strands: seq<Strand>, destination: Option<Endpoint>)
    : Result<Emitted, OutputError>
  {
    if |s| == 0 then Success(e)
    else
      match WireOrder(Split(s), strands)
      case Failure(err) => Failure(err)
      case Success(points) =>
        Success(Emitted(e.datagrams + UniverseDatagrams(points, e.nextUniverse, destination),
                        e.nextUniverse + NumUniverses(|points|)))
  }

  /** The outputs loop after its first n outputs, counting from 0. */
  function OutputsAfter(n: nat, mapping: seq<string>, strands: seq<Strand>, destination: Option<Endpoint>)
    : Result<Emitted, OutputError>
    requires n <= |mapping|
  {
    if n == 0 then Success(Emitted([], 0))
    else
      match OutputsAfter(n - 1, mapping, strands, destination)
      case Failure(err) => Failure(err)
      case Success(e) => OutputStep(e, mapping[n - 1], strands, destination)
  }

  /** The outputs loop after one more output is that output's pass over the state so far. */
  lemma OutputsAfterNext(n: nat, mapping: seq<string>, strands: seq<Strand>, destination: Option<Endpoint>)
    requires n < |mapping| && OutputsAfter(n, mapping, strands, destination).Success?
    ensures OutputsAfter(n + 1, mapping, strands, destination)
            == OutputStep(OutputsAfter(n, mapping, strands, destination).value, mapping[n], strands, destination)
  {
  }

  /** Where the data packets are sent: nowhere when the address does not resolve. */
  function Destination(host: string, port: int, resolves: bool): Option<Endpoint>
  {
    if resolves then Some(Endpoint(host, port)) else None
  }

  /**
   * configurePixliteOutput: the packets added to the engine's output, data
   * packets first and the sync packet last, or the exception that stopped it
   * before any packet was added. `resolves` says whether the configured
   * address resolves.
   */
  function ConfigureSpec(mapping: seq<string>, strands: seq<Strand>, host: string, portText: string, resolves: bool)
    : Result<seq<Datagram>, OutputError>
    requires |mapping| >= OutputsRead
  {
    match ParseInt(portText)
    case None => Failure(NumberFormat(portText))
    case Some(port) =>
      match OutputsAfter(OutputsRead, mapping, strands, Destination(host, port, resolves))
      case Failure(err) => Failure(err)
      case Success(e) => Success(e.datagrams + [ArtSync(port, if resolves then Some(host) else None)])
  }

  /** Every token of a list is accepted by the ID loop. */
  predicate TokensOk(ids: seq<string>)
  {
    forall k :: 0 <= k < |ids| ==> IdOk(ids[k])
  }

  /** A mapping string the outputs loop gets through: empty, or a list of accepted tokens. */
  predicate OutputOk(s: string)
  {
    |s| == 0 || TokensOk(Split(s))
  }

  /** The points an output sends: its wire order, none for an empty string or one the ID loop rejects. */
  function WirePoints(s: string, strands: seq<Strand>): seq<int>
  {
    if |s| > 0 && WireOrder(Split(s), strands).Success? then WireOrder(Split(s), strands).value else []
  }

  /** The points of the first n outputs one after the other. */
  function WiresAfter(n: nat, mapping: seq<string>, strands: seq<Strand>): seq<int>
    requires n <= |mapping|
  {
    if n == 0 then [] else WiresAfter(n - 1, mapping, strands) + WirePoints(mapping[n - 1], strands)
  }

  /** Packet d is a data packet for universe `universe` that fits an ArtDmx packet: 1 to 170 points, 3 channels each. */
  predicate Fits(d: Datagram, universe: int, destination: Option<Endpoint>)
  {
    && d.ArtDmx? && d.universe == universe && d.destination == destination
    && 0 < |d.indices| <= UniverseSize
    && d.dataLength == ChannelsPerPixel * |d.indices| <= DmxChannels
  }

  /** The packets so far are for universes 0, 1, 2, ... in order and the counter is the next one. */
  predicate Numbered(e: Emitted, destination: Option<Endpoint>)
  {
    && e.nextUniverse == |e.datagrams|
    && forall k :: 0 <= k < |e.datagrams| ==> Fits(e.datagrams[k], k, destination)
  }

  /** One output fails exactly when it is not empty and holds a token that is not a number or is negative. */
  lemma StepSucceeds(e: Emitted, s: string, strands: seq<Strand>, destination: Option<Endpoint>)
    ensures OutputStep(e, s, strands, destination).Success? <==> OutputOk(s)
  {
    WireOrderSucceeds(Split(s), strands);
  }

  /** An output whose wire order is empty (an empty string, or only unknown strands) adds no packet and no universe. */
  lemma StepWithoutPoints(e: Emitted, s: string, strands: seq<Strand>, destination: Option<Endpoint>)
    requires |s| == 0 || WireOrder(Split(s), strands) == Success([])
    ensures OutputStep(e, s, strands, destination) == Success(e)
  {
    if |s| > 0 {
      assert e.datagrams + UniverseDatagrams([], e.nextUniverse, destination) == e.datagrams;
    }
  }

  /** One output keeps the numbering: its universes follow on from the previous outputs' without a gap. */
  lemma StepNumbered(e: Emitted, s: string, strands: seq<Strand>, destination: Option<Endpoint>)
    requires Numbered(e, destination)
    requires OutputStep(e, s, strands, destination).Success?
    ensures Numbered(OutputStep(e, s, strands, destination).value, destination)
  {
    if |s| > 0 {
      var points := WireOrder(Split(s), strands).value;
      var ds := UniverseDatagrams(points, e.nextUniverse, destination);
      UniverseDatagramsFit(points, e.nextUniverse, destination);
      var all := e.datagrams + ds;
      forall k | 0 <= k < |all|
        ensures Fits(all[k], k, destination)
      {
        if k >= |e.datagrams| {
          assert all[k] == ds[k - |e.datagrams|];
        }
      }
    }
  }

  /** One output's packets carry exactly that output's points, after the previous outputs' ones. */
  lemma StepCarries(e: Emitted, s: string, strands: seq<Strand>, destination: Option<Endpoint>)
    requires OutputStep(e, s, strands, destination).Success?
    ensures Indices(OutputStep(e, s, strands, destination).value.datagrams) == Indices(e.datagrams) + WirePoints(s, strands)
  {
    if |s| > 0 {
      var points := WireOrder(Split(s), strands).value;
      var ds := UniverseDatagrams(points, e.nextUniverse, destination);
      IndicesAppend(e.datagrams, ds);
      UniversesJoin(points, e.nextUniverse, destination);
    } else {
      assert Indices(e.datagrams) + [] == Indices(e.datagrams);
    }
  }

  lemma {:induction false} OutputsFailurePersists(i: nat, k: nat, mapping: seq<string>, strands: seq<Strand>,
                                                  destination: Option<Endpoint>)
    requires i <= k <= |mapping|
    requires OutputsAfter(i, mapping, strands, destination).Failure?
    ensures OutputsAfter(k, mapping, strands, destination) == OutputsAfter(i, mapping, strands, destination)
  {
    if i < k {
      OutputsFailurePersists(i, k - 1, mapping, strands, destination);
    }
  }

  /** The outputs loop fails exactly when one of the outputs read is rejected. */
  lemma OutputsSucceed(n: nat, mapping: seq<string>, strands: seq<Strand>, destination: Option<Endpoint>)
    requires n <= |mapping|
    ensures OutputsAfter(n, mapping, strands, destination).Success? <==> forall k :: 0 <= k < n ==> OutputOk(mapping[k])
  {
    OutputsSucceedUpTo(n, mapping, strands, destination);
    HoldsUpToAll(n, mapping, OutputOk);
  }

  /** p holds for the first n elements of xs, checked from the last one back. */
  predicate HoldsUpTo<T>(n: nat, xs: seq<T>, p: T -> bool)
    requires n <= |xs|
  {
    n == 0 || (HoldsUpTo(n - 1, xs, p) && p(xs[n - 1]))
  }

  lemma {:induction false} OutputsSucceedUpTo(n: nat, mapping: seq<string>, strands: seq<Strand>,
                                              destination: Option<Endpoint>)
    requires n <= |mapping|
    ensures OutputsAfter(n, mapping, strands, destination).Success? <==> HoldsUpTo(n, mapping, OutputOk)
  {
    if n > 0 {
      OutputsSucceedUpTo(n - 1, mapping, strands, destination);
      var prev := OutputsAfter(n - 1, mapping, strands, destination);
      if prev.Success? {
        StepSucceeds(prev.value, mapping[n - 1], strands, destination);
      }
    }
  }

  lemma {:induction false} HoldsUpToAll<T>(n: nat, xs: seq<T>, p: T -> bool)
    requires n <= |xs|
    ensures HoldsUpTo(n, xs, p) <==> forall k :: 0 <= k < n ==> p(xs[k])
  {
    if n > 0 {
      HoldsUpToAll(n - 1, xs, p);
    }
  }

  /**
   * Universe numbers start at 0 and have no gaps across outputs: the packet
   * at position k is for universe k, every packet fits an ArtDmx packet, and
   * the universe counter equals the number of packets.
   */
  lemma {:induction false} OutputsNumbered(n: nat, mapping: seq<string>, strands: seq<Strand>, destination: Option<Endpoint>)
    requires n <= |mapping|
    requires OutputsAfter(n, mapping, strands, destination).Success?
    ensures Numbered(OutputsAfter(n, mapping, strands, destination).value, destination)
  {
    if n > 0 {
      OutputsNumbered(n - 1, mapping, strands, destination);
      StepNumbered(OutputsAfter(n - 1, mapping, strands, destination).value, mapping[n - 1], strands, destination);
    }
  }

  /** The data packets carry, in order, the points of the outputs one after the other. */
  lemma {:induction false} OutputsCarryWireOrder(n: nat, mapping: seq<string>, strands: seq<Strand>,
                                                 destination: Option<Endpoint>)
    requires n <= |mapping|
    requires OutputsAfter(n, mapping, strands, destination).Success?
    ensures Indices(OutputsAfter(n, mapping, strands, destination).value.datagrams) == WiresAfter(n, mapping, strands)
  {
    if n > 0 {
      OutputsCarryWireOrder(n - 1, mapping, strands, destination);
      StepCarries(OutputsAfter(n - 1, mapping, strands, destination).value, mapping[n - 1], strands, destination);
    }
  }

  lemma {:induction false} IndicesAppend(a: seq<Datagram>, b: seq<Datagram>)
    ensures Indices(a + b) == Indices(a) + Indices(b)
  {
    if |b| > 0 {
      IndicesAppend(a, b[..|b| - 1]);
      assert (a + b)[..|a + b| - 1] == a + b[..|b| - 1];
    } else {
      assert a + b == a;
    }
  }

  /** The loop's outcome depends on the first n mapping strings only. */
  lemma {:induction false} OutputsPrefix(n: nat, mapping: seq<string>, other: seq<string>, strands: seq<Strand>,
                                         destination: Option<Endpoint>)
    requires n <= |mapping| && n <= |other|
    requires forall k :: 0 <= k < n ==> mapping[k] == other[k]
    ensures OutputsAfter(n, mapping, strands, destination) == OutputsAfter(n, other, strands, destination)
  {
    if n > 0 {
      OutputsPrefix(n - 1, mapping, other, strands, destination);
      assert mapping[n - 1] == other[n - 1];
    }
  }

  /** Only output1 .. output16 are read: whatever follows them in the mapping changes nothing. */
  lemma OnlyFirstOutputsRead(mapping: seq<string>, strands: seq<Strand>, host: string, portText: string, resolves: bool)
    requires |mapping| >= OutputsRead
    ensures ConfigureSpec(mapping, strands, host, portText, resolves)
         == ConfigureSpec(mapping[..OutputsRead], strands, host, portText, resolves)
  {
    if ParseInt(portText).Some? {
      var destination := Destination(host, ParseInt(portText).value, resolves);
      OutputsPrefix(OutputsRead, mapping, mapping[..OutputsRead], strands, destination);
    }
  }

  /** With every mapping string empty, no data packet is made and the counter stays at 0. */
  lemma {:induction false} EmptyOutputsSendNothing(n: nat, mapping: seq<string>, strands: seq<Strand>,
                                                   destination: Option<Endpoint>)
    requires n <= |mapping|
    requires forall k :: 0 <= k < n ==> mapping[k] == ""
    ensures OutputsAfter(n, mapping, strands, destination) == Success(Emitted([], 0))
  {
    if n > 0 {
      EmptyOutputsSendNothing(n - 1, mapping, strands, destination);
    }
  }

  /**
   * What configurePixliteOutput hands to the engine: it fails exactly when
   * the port is not a number or an output names a bad strand ID; otherwise
   * the data packets come first, numbered by position from universe 0 and
   * carrying the outputs' points in order, and exactly one ArtSync packet
   * comes last.
   */
  lemma ConfigureOutcome(mapping: seq<string>, strands: seq<Strand>, host: string, portText: string, resolves: bool)
    requires |mapping| >= OutputsRead
    ensures var r := ConfigureSpec(mapping, strands, host, portText, resolves);
            && (r.Success? <==> ParseInt(portText).Some? && forall k :: 0 <= k < OutputsRead ==> OutputOk(mapping[k]))
            && (r.Success? ==>
                  var port := ParseInt(portText).value;
                  var data := r.value[..|r.value| - 1];
                  && |r.value| >= 1
                  && r.value[|r.value| - 1] == ArtSync(port, if resolves then Some(host) else None)
                  && Indices(data) == WiresAfter(OutputsRead, mapping, strands)
                  && forall k :: 0 <= k < |data| ==> Fits(data[k], k, Destination(host, port, resolves)))
  {
    if ParseInt(portText).Some? {
      var destination := Destination(host, ParseInt(portText).value, resolves);
      OutputsSucceed(OutputsRead, mapping, strands, destination);
      var outputs := OutputsAfter(OutputsRead, mapping, strands, destination);
      if outputs.Success? {
        OutputsNumbered(OutputsRead, mapping, strands, destination);
        OutputsCarryWireOrder(OutputsRead, mapping, strands, destination);
        var r := outputs.value.datagrams + [ArtSync(ParseInt(portText).value, if resolves then Some(host) else None)];
        assert r[..|r| - 1] == outputs.value.datagrams;
      }
    }
  }

  /** One pass of the outputs loop: the wire order of one mapping string, cut into universes. */
  method OutputPass(e: Emitted, strandIds: string, strands: seq<Strand>, destination: Option<Endpoint>)
    returns (r: Result<Emitted, OutputError>)
    ensures r == OutputStep(e, strandIds, strands, destination)
  {
    if |strandIds| == 0 {
      return Success(e);
    }
    var pointsWireOrder := CollectWireOrder(Split(strandIds), strands);
    if pointsWireOrder.Failure? {
      return Failure(pointsWireOrder.error);
    }
    var emitted, curUnivOffset := EmitUniverses(pointsWireOrder.value, e.nextUniverse, destination);
    r := Success(Emitted(e.datagrams + emitted, e.nextUniverse + curUnivOffset));
  }

  /**
   * configurePixliteOutput. `mapping[k]` is the mapping parameter output(k+1),
   * `strands` the model's strands, `host` and `portText` the controller
   * address and port parameters, and `resolves` whether the address resolves.
   * The result is the list of packets added to the engine's output.
   */
  method ConfigurePixliteOutput(mapping: seq<string>, strands: seq<Strand>, host: string, portText: string, resolves: bool)
    returns (r: Result<seq<Datagram>, OutputError>)
    requires |mapping| >= OutputsRead
    ensures r == ConfigureSpec(mapping, strands, host, portText, resolves)
  {
    var artNetIpPort := ParseInt(portText);
    if artNetIpPort.None? {
      return Failure(NumberFormat(portText));
    }
    var destination := Destination(host, artNetIpPort.value, resolves);
    var datagrams: seq<Datagram> := [];
    var curUniverseNum := 0;
    for outputNum := 0 to OutputsRead
      invariant OutputsAfter(outputNum, mapping, strands, destination) == Success(Emitted(datagrams, curUniverseNum))
    {
      OutputsAfterNext(outputNum, mapping, strands, destination);
      var next := OutputPass(Emitted(datagrams, curUniverseNum), mapping[outputNum], strands, destination);
      if next.Failure? {
        OutputsFailurePersists(outputNum + 1, OutputsRead, mapping, strands, destination);
        return Failure(next.error);
      }
      datagrams, curUniverseNum := next.value.datagrams, next.value.nextUniverse;
    }
    r := Success(datagrams + [ArtSync(artNetIpPort.value, if resolves then Some(host) else None)]);
  }
}
