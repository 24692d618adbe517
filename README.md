# Kaledoscope fixture model and Art-Net output mapping, in Dafny

Kaledoscope drives an installation of LED butterflies hung along steel wires and of LED flowers. This project models two parts of it and proves properties of them:

- **Building the model** (`KaledoscopeModel.createModel` with the `Run` and `Strand` constructors, `LUButterfly.buildPoints`, `LUFlower.buildPoints`).
  - Butterfly runs are made of strands, and strands are made of butterflies. Then come the one-strand flower runs.
  - Every fixture creates its LED points, and every point gets the next index of the model's point list.
- **The output mapping** (`Output.configurePixliteOutput`).
  - Each of the mapping parameters `output1` .. `output16` lists strand IDs.
  - The listed strands' points, in wire order, are cut into Art-Net universes of at most 170 pixels.
  - The universes are numbered from 0 across all outputs, and one ArtSync packet follows the data packets.

## Modules

- `common.dfy` (`Common`): `Option`, `Result`, and integer ranges.
- `fixtures.dfy` (`Fixtures`): `LUButterfly` and `LUFlower` as classes, with a `BuildPoints` method that rebuilds their point lists in place.
  - A point is the index LX gives it: its position in the model's point list.
  - A fixture is handed the index of its first point and numbers the rest in creation order.
- `topology.dfy` (`Topology`): the values the construction produces (`Strand`, `Run`) and one function per constructor, stating what that constructor produces from the counters it starts from.
  - The counters are the sizes of the static lists and the number of points created so far.
  - The lemmas here state what the construction guarantees. Every strand and run gets its next ID or index. Every fixture's points are the next ones in creation order. The model's point list is `0 .. P-1`, and it is both the runs' points and the strands' points concatenated. The construction fails exactly when a strand ID has no configured length, when a butterfly run needs a third curve, or when `numRuns` is negative.
- `kaledoscope_model.dfy` (`KaledoscopeBuild`): the static state of `KaledoscopeModel` as a class, holding the lists `allButterflies`, `allFlowers`, `allRuns`, `allStrands` and `numStrandsPerRun`, and the count of points created.
  - The constructors and `createModel` are methods with loops. They append to these lists in place.
  - Each method is proved to produce exactly the value of its `Topology` function, and to leave the lists grown by exactly what it built.
- `java_text.dfy` (`JavaText`): `Integer.parseInt` on decimal numerals and `String.split(",")`, which the mapping relies on.
- `output.dfy` (`Output`): `configurePixliteOutput`.
  - It has three loops: the strand-ID loop, the point loop that fills a buffer and sends it when it is full, and the loop over the 16 outputs. Each loop is a method proved equal to a specification function.
  - Lemmas state what the packets are: how many there are, their sizes, their numbering, what they carry, and when the method fails.

Behaviour of the code worth knowing, stated against the code's own text:

- A butterfly's curve parameter is its index on its own strand, `i`, divided by `numButterflies * numStrandsPerRun / 2`. Strand `k` of a run uses the run's curve `k` (`KaledoscopeModel.java:86`, `102`, `106`).
  - The offset that would make the index run-relative, `+ strandRunIndex * numButterflies`, is commented out at `KaledoscopeModel.java:102`.
  - The comment at `KaledoscopeModel.java:89-90` speaks of two strands spanning a single curve, but the code gives each strand a curve of its own.
  - A run has two curves, so a butterfly run with more than two strands fails when it looks up a third curve. `Topology.AppConfigurationFails` proves that the application's own call `createModel(3, 4, 10)` fails this way.
- The strand-ID guard at `Output.java:52` checks only the upper bound. A strand ID at or past the number of strands is skipped; a negative one raises `IndexOutOfBoundsException` at `Output.java:53`.
- Only `output1` .. `output16` are read (`Output.java:41`), although `MAX_OUTPUTS` at `Output.java:23` is 32, with the comment "32 outputs in expanded mode".
- When the controller address does not resolve, the data packets are still made, without a destination. The sync packet keeps its port and has no address.
- The comment at `LUFlower.java:9` speaks of five petals and six LEDs. The code builds four petals, so a flower has five points.
- `Run.strands` is declared but never filled, so every run's `strands` is empty in the model too.

## Model

| member | source | states |
|---|---|---|
| Fixtures.Butterfly.constructor | src/main/java/art/lookingup/LUButterfly.java:46-54 | keeps the strand index, run index and position it is given and builds the layout: its points are the 16 consecutive indices from its first point |
| Fixtures.Butterfly.BuildPoints | src/main/java/art/lookingup/LUButterfly.java:56-85 | replaces every list with a new one holding the layout (left strip then right strip, clockwise, counter-clockwise and row orders), so calling it again rebuilds each list instead of accumulating points |
| Fixtures.BuildStrip | src/main/java/art/lookingup/LUButterfly.java:64-69 | a strip is eight new points numbered consecutively from the next point |
| Fixtures.AppendReversed | src/main/java/art/lookingup/LUButterfly.java:71-76 | the reverse-index loop appends the list read back to front |
| Fixtures.InterleaveRows | src/main/java/art/lookingup/LUButterfly.java:78-81 | the row loop yields left[0], right[0], left[1], right[1], ... |
| Fixtures.ReversedInvolution | src/main/java/art/lookingup/LUButterfly.java:71-76 | reading a list backwards twice gives it back |
| Fixtures.ReversedPermutation | src/main/java/art/lookingup/LUButterfly.java:71-76 | the reversed list holds the same points, each as often |
| Fixtures.CounterClockwiseIsReversedClockwise | src/main/java/art/lookingup/LUButterfly.java:70-76 | right ++ reverse(left) is left ++ reverse(right) read backwards |
| Fixtures.ByRowAt | src/main/java/art/lookingup/LUButterfly.java:78-81 | row order has twice the strip length; position 2i is left[i] and 2i+1 is right[i] |
| Fixtures.ByRowPermutation | src/main/java/art/lookingup/LUButterfly.java:78-81 | row order holds exactly the points of both strips |
| Fixtures.ReversedRange | src/main/java/art/lookingup/LUButterfly.java:71-72 | a strip of consecutive points, read from its last LED back, counts down to its first point |
| Fixtures.ButterflyRings | src/main/java/art/lookingup/LUButterfly.java:70-76 | clockwise is left[0..7] then right[7] down to right[0]; counter-clockwise is right[0..7] then left[7] down to left[0] |
| Fixtures.ButterflyOrderings | src/main/java/art/lookingup/LUButterfly.java:70-84 | a butterfly has 16 distinct points; each of the three orders is a rearrangement of them; counter-clockwise is clockwise reversed; row order alternates the strips |
| Fixtures.Flower.constructor | src/main/java/art/lookingup/LUFlower.java:27-35 | keeps the indices it is given and builds the layout: its points are the 5 consecutive indices from its first point |
| Fixtures.Flower.BuildPoints | src/main/java/art/lookingup/LUFlower.java:37-51 | center then four petals, in a fresh petal array; the addressable points are center and first petal |
| Fixtures.FlowerLayout | src/main/java/art/lookingup/LUFlower.java:44-51 | five distinct points; the addressable ones are the first two of all; every petal occurs exactly once |
| Topology.Wrap32 | src/main/java/art/lookingup/KaledoscopeModel.java:106 | the Java int product lies in the int range and differs from the exact product by a multiple of 2^32 |
| Topology.JavaHalf | src/main/java/art/lookingup/KaledoscopeModel.java:106 | int division by 2 truncates toward zero, for either sign |
| Topology.NewButterfliesAt | src/main/java/art/lookingup/KaledoscopeModel.java:88-119 | butterfly i of a strand has strand index i, run index prevRun + i, curve parameter i / den on the strand's curve, and the strand's i-th block of 16 points |
| Topology.NewFlowersAt | src/main/java/art/lookingup/KaledoscopeModel.java:61-68 | flower i of a strand has strand index i, run index prevRun + i and the strand's i-th block of 5 points |
| Topology.ButterflyStrandBlocks | src/main/java/art/lookingup/KaledoscopeModel.java:115-118 | a butterfly strand's points are its butterflies' points one after the other, 16 each |
| Topology.FlowerStrandBlocks | src/main/java/art/lookingup/KaledoscopeModel.java:64-67 | a flower strand's points are its flowers' points one after the other, 5 each |
| Topology.ButterflyRunStep | src/main/java/art/lookingup/KaledoscopeModel.java:204-209 | appending one more strand keeps everything the run promises (IDs, curves, lengths, points, run indices) |
| Topology.FlowerRunStep | src/main/java/art/lookingup/KaledoscopeModel.java:167-172 | appending one more flower strand keeps everything the run promises |
| Topology.ButterflyRunAfterOk | src/main/java/art/lookingup/KaledoscopeModel.java:175-210 | a built butterfly run's strands take consecutive IDs and curves 0, 1, ..., and each has its configured number of butterflies; the run's butterflies and points are its strands' concatenated and are the next ones created; each butterfly's run index is its position in the run |
| Topology.FlowerRunAfterOk | src/main/java/art/lookingup/KaledoscopeModel.java:159-173 | the same for a flower run, whose strands all keep strandRunIndex 0 |
| Topology.ButterflyRunAfterStrands | src/main/java/art/lookingup/KaledoscopeModel.java:205 | a butterfly run of j strands allocates the next j strand IDs |
| Topology.FlowerRunAfterStrands | src/main/java/art/lookingup/KaledoscopeModel.java:168 | a flower run of j strands allocates the next j strand IDs |
| Topology.ButterflyRunAfterSucceeds | src/main/java/art/lookingup/KaledoscopeModel.java:84-86 | a butterfly run is built exactly when it has at most two strands and all its strand IDs have configured lengths |
| Topology.FlowerRunAfterSucceeds | src/main/java/art/lookingup/KaledoscopeModel.java:59 | a flower run is built exactly when all its strand IDs have configured lengths |
| Topology.ButterflyRunAfterError | src/main/java/art/lookingup/KaledoscopeModel.java:84-86 | a failed butterfly run reports the first strand without a length, or else the missing third curve |
| Topology.FlowerRunAfterError | src/main/java/art/lookingup/KaledoscopeModel.java:59 | a failed flower run reports the first strand without a length |
| Topology.ButterflyRunFailurePersists | src/main/java/art/lookingup/KaledoscopeModel.java:204-205 | once a strand constructor throws, the run fails with that error however many strands remain |
| Topology.FlowerRunFailurePersists | src/main/java/art/lookingup/KaledoscopeModel.java:167-168 | the same for a flower run |
| Topology.ButterflyRunsFailurePersists | src/main/java/art/lookingup/KaledoscopeModel.java:222-223 | once a run constructor throws, createModel's butterfly loop fails with that error |
| Topology.FlowerRunsFailurePersists | src/main/java/art/lookingup/KaledoscopeModel.java:229-235 | the same for the flower-run loop |
| Topology.ButterflyModelStep | src/main/java/art/lookingup/KaledoscopeModel.java:222-226 | adding one more butterfly run keeps every model invariant (run and strand numbering, point layout, fixture order, counters) |
| Topology.FlowerModelStep | src/main/java/art/lookingup/KaledoscopeModel.java:229-238 | adding one more flower run keeps every model invariant |
| Topology.ButterflyRunsAfterStepOk | src/main/java/art/lookingup/KaledoscopeModel.java:222-226 | one more butterfly run appends what that run builds and keeps the model invariant, with one more run counted |
| Topology.ButterflyRunsAfterOk | src/main/java/art/lookingup/KaledoscopeModel.java:222-226 | after i butterfly runs the model invariant holds, with i runs of strandsPerRun strands |
| Topology.FlowerRunsAfterStepOk | src/main/java/art/lookingup/KaledoscopeModel.java:228-238 | one more flower run appends what that run builds and keeps the model invariant, with one more flower run counted |
| Topology.FlowerRunsAfterOk | src/main/java/art/lookingup/KaledoscopeModel.java:228-238 | after i more flower runs the invariant holds, with i more one-strand runs |
| Topology.ButterflyRunsAfterStrands | src/main/java/art/lookingup/KaledoscopeModel.java:222-226 | i butterfly runs allocate i * strandsPerRun strand IDs |
| Topology.ButterflyRunsAfterSucceeds | src/main/java/art/lookingup/KaledoscopeModel.java:222-226 | the butterfly runs are built exactly when they need at most two curves each and strands 0 .. i*spr-1 all have lengths |
| Topology.FlowerRunsAfterSucceeds | src/main/java/art/lookingup/KaledoscopeModel.java:228-238 | the flower runs are built exactly when their strand IDs all have lengths |
| Topology.CreateModelOk | src/main/java/art/lookingup/KaledoscopeModel.java:213-241 | a built model has run i with run index i and the butterfly runs first; strand k with ID k; points 0 .. P-1 equal to the runs' and the strands' points concatenated (16 per butterfly, 5 per flower); fixtures in creation order; each flower run a single strand |
| Topology.CreateModelSucceeds | src/main/java/art/lookingup/KaledoscopeModel.java:213-241 | createModel succeeds exactly when numRuns is not negative, the butterfly runs need at most two curves, and every strand ID it allocates has a configured length |
| Topology.FixturesHoldModelPoints | src/main/java/art/lookingup/KaledoscopeModel.java:213-241 | in a finished model whose fixture objects are built, butterfly k holds the k-th block of 16 model points and flower k the k-th block of 5 after all butterflies |
| Topology.CreatedFixturesHoldPoints | src/main/java/art/lookingup/KaledoscopeModel.java:213-241 | the same for the model createModel builds: its fixture objects hold exactly its point list, block by block |
| Topology.AppConfigurationFails | src/main/java/art/lookingup/KaledoscopeApp.java:118 | createModel(3, 4, 10) always fails; with strands 0 to 2 configured, the failure is the lookup of curve 2 |
| KaledoscopeBuild.KaledoscopeModel.AddButterfly | src/main/java/art/lookingup/KaledoscopeModel.java:114-117 | creates a butterfly with strand index i and run index i + prevStrandsButterflies, whose points are the next 16 in the layout buildPoints produces, and appends it to allButterflies; fixtures that were built stay built |
| KaledoscopeBuild.KaledoscopeModel.AddFlower | src/main/java/art/lookingup/KaledoscopeModel.java:62-66 | creates a flower with strand index i and run index i + prevStrandsFlowers, whose points are the next 5 in the layout buildPoints produces, and appends it to allFlowers; fixtures that were built stay built |
| KaledoscopeBuild.KaledoscopeModel.NewButterflyStrand | src/main/java/art/lookingup/KaledoscopeModel.java:71-120 | builds exactly ButterflyStrandSpec; on failure nothing changes; otherwise it appends exactly the described butterflies to allButterflies and advances the point count by the strand's points; every fixture in the lists that was built stays built, and so is every new one |
| KaledoscopeBuild.KaledoscopeModel.NewFlowerStrand | src/main/java/art/lookingup/KaledoscopeModel.java:48-69 | builds exactly FlowerStrandSpec, with the same guarantees |
| KaledoscopeBuild.KaledoscopeModel.AppendStrand | src/main/java/art/lookingup/KaledoscopeModel.java:171 | appends the finished strand to allStrands and changes nothing else |
| KaledoscopeBuild.KaledoscopeModel.AppendRun | src/main/java/art/lookingup/KaledoscopeModel.java:224 | appends the finished run to allRuns and changes nothing else |
| KaledoscopeBuild.KaledoscopeModel.NewButterflyRun | src/main/java/art/lookingup/KaledoscopeModel.java:175-210 | builds exactly ButterflyRunAfter; on success the lists have grown by exactly the run's strands and fixtures; all fixtures stay built |
| KaledoscopeBuild.KaledoscopeModel.ButterflyRunStep | src/main/java/art/lookingup/KaledoscopeModel.java:204-209 | one pass of the strand loop takes ButterflyRunAfter from i to i + 1 strands, or fails with its error |
| KaledoscopeBuild.KaledoscopeModel.NewFlowerRun | src/main/java/art/lookingup/KaledoscopeModel.java:159-173 | builds exactly FlowerRunAfter, with the same guarantees |
| KaledoscopeBuild.KaledoscopeModel.FlowerRunStep | src/main/java/art/lookingup/KaledoscopeModel.java:167-172 | one pass of the strand loop takes FlowerRunAfter from i to i + 1 strands, or fails with its error |
| KaledoscopeBuild.KaledoscopeModel.AddButterflyRuns | src/main/java/art/lookingup/KaledoscopeModel.java:222-226 | the butterfly-run loop yields exactly the points of ButterflyRunsAfter, and the static lists then hold that model, with every fixture built |
| KaledoscopeBuild.KaledoscopeModel.AddFlowerRuns | src/main/java/art/lookingup/KaledoscopeModel.java:228-238 | the flower-run loop yields exactly the points of FlowerRunsAfter, and the static lists then hold that model; fixtures that were built stay built |
| KaledoscopeBuild.KaledoscopeModel.CreateModel | src/main/java/art/lookingup/KaledoscopeModel.java:213-241 | returns the points of CreateModelSpec (or its error); a negative numRuns fails, as new ArrayList does, before any list changes; on success the static lists hold that model, so CreateModelOk and CreateModelSucceeds describe it; every butterfly and flower object has its buildPoints layout, and butterfly k holds the k-th block of 16 returned points, flower k the k-th block of 5 after them |
| JavaText.ParseInt | src/main/java/art/lookingup/Output.java:51 | accepts only digits after an optional '-' or '+' that is not alone; digits alone or after '+' give their value when it is at most 2^31-1, after '-' its negation when it is at least -2^31; anything larger is rejected |
| JavaText.LeadingZeroValue | src/main/java/art/lookingup/Output.java:51 | a leading zero does not change a numeral's value |
| JavaText.ParseIntLeadingZero | src/main/java/art/lookingup/Output.java:51 | parseInt reads "0" followed by digits as it reads the digits alone |
| JavaText.ParseIntText | src/main/java/art/lookingup/Output.java:51 | every int's decimal text parses back to that int |
| JavaText.FieldsJoin | src/main/java/art/lookingup/Output.java:49 | cutting at every comma and joining with commas gives the text back, and no piece holds a comma |
| JavaText.DropTrailingEmpty | src/main/java/art/lookingup/Output.java:49 | keeps a prefix of the pieces, drops only empty pieces, and the last piece kept is not empty |
| JavaText.SplitFields | src/main/java/art/lookingup/Output.java:49 | text without a comma is its own only piece; otherwise the last piece kept is not empty; split's pieces are the leading comma-free pieces of the text, and all it drops is empty |
| Output.WireOrderFailurePersists | src/main/java/art/lookingup/Output.java:50-51 | a token that throws ends the ID loop with that exception |
| Output.WireOrderSucceeds | src/main/java/art/lookingup/Output.java:50-57 | the ID loop fails exactly when some token is not a number or is negative |
| Output.WireOrderSnoc | src/main/java/art/lookingup/Output.java:51-56 | one more accepted token appends its strand's points, or nothing past the last strand |
| Output.WireOrderSingle | src/main/java/art/lookingup/Output.java:51-56 | a single accepted token yields its strand's points, or nothing past the last strand |
| Output.WireOrderAppend | src/main/java/art/lookingup/Output.java:50-57 | the wire order of two ID lists one after the other is their wire orders one after the other |
| Output.FlowerStrandSent | src/main/java/art/lookingup/Output.java:53-55 | a flower strand is sent whole: all five points of each flower, flower by flower, not only the two addressable ones |
| Output.CollectWireOrder | src/main/java/art/lookingup/Output.java:46-57 | the ID loop yields exactly WireOrder, or its exception |
| Output.NumUniversesBounds | src/main/java/art/lookingup/Output.java:59 | the universe count is the least number of 170-pixel universes holding every point, and 0 exactly for no points |
| Output.UniverseSizes | src/main/java/art/lookingup/Output.java:59-62 | every universe but the last holds 170 points; the last holds count - 170 * (n - 1); each holds 1 to 170 |
| Output.UniversesJoin | src/main/java/art/lookingup/Output.java:66-79 | the universes' indices concatenated are exactly the output's wire order |
| Output.UniverseDatagramsFit | src/main/java/art/lookingup/Output.java:69-71 | the packets of one output have consecutive universe numbers from the start number; each has 1 to 170 points, 3 channels per point, at most 510 of the 512 channels |
| Output.BufferSizes | src/main/java/art/lookingup/Output.java:61-63 | every buffer allocated has exactly the size of the universe it is filled for |
| Output.FillStep | src/main/java/art/lookingup/Output.java:67-69 | the test that sends the buffer holds exactly when the buffer is full |
| Output.SendUniverse | src/main/java/art/lookingup/Output.java:69-86 | sending a full buffer appends the packet for the next universe, and the fresh buffer has exactly the size of the universe that follows |
| Output.EmitUniverses | src/main/java/art/lookingup/Output.java:59-89 | the point loop yields exactly UniverseDatagrams and uses NumUniverses universe numbers |
| Output.StepSucceeds | src/main/java/art/lookingup/Output.java:45-57 | one output fails exactly when it is not empty and holds a bad token |
| Output.StepWithoutPoints | src/main/java/art/lookingup/Output.java:45 | an empty output, or one naming only unknown strands, adds no packet and no universe number |
| Output.StepNumbered | src/main/java/art/lookingup/Output.java:60-89 | one output keeps the numbering: its universes follow the previous ones without a gap |
| Output.StepCarries | src/main/java/art/lookingup/Output.java:55-79 | one output's packets carry exactly its points, after the previous outputs' points |
| Output.OutputsFailurePersists | src/main/java/art/lookingup/Output.java:41-51 | an exception in one output ends the outputs loop with that exception |
| Output.OutputsSucceed | src/main/java/art/lookingup/Output.java:41-57 | the outputs loop fails exactly when one of the outputs read is rejected |
| Output.OutputsNumbered | src/main/java/art/lookingup/Output.java:40-89 | packet k is for universe k, every packet fits an ArtDmx packet, and the counter equals the number of packets |
| Output.OutputsCarryWireOrder | src/main/java/art/lookingup/Output.java:41-89 | the packets carry, in order, the points of the outputs one after the other: no point dropped or repeated |
| Output.OutputsPrefix | src/main/java/art/lookingup/Output.java:41-43 | the first n outputs' packets depend only on the first n mapping strings |
| Output.OnlyFirstOutputsRead | src/main/java/art/lookingup/Output.java:41-43 | only output1 .. output16 are read |
| Output.EmptyOutputsSendNothing | src/main/java/art/lookingup/Output.java:45 | with every mapping string empty, no data packet is made |
| Output.ConfigureOutcome | src/main/java/art/lookingup/Output.java:27-104 | fails exactly when the port is not a number or an output holds a bad token; otherwise the data packets come first, numbered from universe 0, carrying all the outputs' points in order, and one ArtSync with the port comes last |
| Output.OutputPass | src/main/java/art/lookingup/Output.java:43-90 | one pass of the outputs loop does exactly OutputStep: an empty string changes nothing; otherwise the string's wire order is sent in universes numbered on from the counter, or its exception is raised |
| Output.ConfigurePixliteOutput | src/main/java/art/lookingup/Output.java:27-104 | yields exactly ConfigureSpec: the packets added to the engine's output, or the exception |

## Left out

- Geometry is not modelled.
  - Not modelled: fixture positions, `ledSpacing`, `stripSpacing`, `RADIUS`, the flower spacing, the Bezier control points of a run, `calculateBezierPoint`, and all float arithmetic.
  - A butterfly records its placement as (curve, numerator, denominator). A zero denominator, which gives a NaN position in Java, is therefore harmless in the model.
- Point indices are the positions in the model's point list. In the source, `LXModel`'s constructor (`KaledoscopeModel.java:243-246`) assigns them. The model numbers points from a counter that `createModel` resets to 0. The `LXPoint` objects themselves are not modelled.
- `KaledoscopeApp.allStrandLengths` and `KaledoscopeApp.runsFlowers` are not part of this model. They are parameters: a map from strand ID to length, and an int.
  - A missing length is the error `MissingStrandLength`. Java would fail with an exception whose kind depends on that field's type.
- The back-reference `Strand.run` and the strands' x, y, z are not modelled. Fixtures are referred to by their positions in `allButterflies` and `allFlowers`.
- KaledoscopeBuild.KaledoscopeModel.CreateModel: after a failure other than a negative `numRuns`, the state of the static lists is not stated. Java leaves them partly filled.
- Fixtures.Butterfly.BuildPoints: a rebuild creates 16 new `LXPoint` objects in Java. The model numbers them again from the same `firstPoint`, so they are identified with the old ones.
- JavaText.ParseInt: only ASCII digits are accepted. Java also accepts other Unicode decimal digits.
- Output.NumUniverses: `Math.ceil((float) n / 170f)` is modelled as the exact ceiling. The two agree below 2^24 points.
- Point indices and point counts are unbounded integers. Java int overflow beyond 2^31 points is not modelled. The curve denominator's int arithmetic is modelled.
- Network resolution is not modelled. `InetAddress.getByName` is a flag `resolves`, assumed to give the same answer at every call.
- Logging is not modelled.
- The `addChild` calls (`Output.java:93-95`, `103`) are not modelled. The result is the list of packets in the order they would be added.
- An `ArtNetDatagram` is modelled by its universe, point indices, data length and destination. The colour data it sends each frame is not modelled.
- `MAX_OUTPUTS`, the static `outputs` list and `countsPerOutput` are not modelled. `MAX_OUTPUTS` is read only to size `outputs` (`Output.java:25`). Nothing in the core reads `outputs` or `countsPerOutput`.
