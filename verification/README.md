# Verified model of the flow solver's self-contained algorithms

Kynema-SGF is an adaptive-mesh flow solver. Around the mesh library's own machinery it
has a number of algorithms that stand on their own. This project models eight of them in
Dafny and proves what they are for.

- `Plane`, `ConvexHull`, `IndexBoxes`, `Forest`, `Canopy`, `CanopyTrim`: forests given as
  point clouds. A monotone-chain hull of the footprint, its conversion to half-space edges,
  the reading of several clouds into flattened arrays, the bounded scan for nearest
  samples, inverse-distance interpolation of the leaf-area density, and what the boxes of
  forests leave out.
- `Clock`, `TimeControl`, `TimeLoop`, `Runs`: the simulation clock and the loop that
  drives it. Step selection with all its limits, output triggers, termination with a
  bound, and what whole runs write.
- `Stencils`, `FvmSweeps`, `FvmOperators`, `BoxSums`: the 27 finite-volume stencils,
  applied one after another and overwriting in place, and the gradient, divergence,
  Laplacian and filter kernels.
- `MolFluxes`: the choice between two flux kernels per tile, and the convective rates.
- `RhsUpdate`: predictor, corrector and the explicit diffusion correction.
- `FieldNames`, `FieldRepo`: the repository of fields, their stored names and their
  arrays on all levels.
- `TiogaMesh`, `TiogaExchange`: numbering of patches for the overset library and the
  exchange buffer.
- `HeaderText`, `PlotfileHeader`, `AmrexPlotFile`, `BoundaryPlane`: the Python tools that
  write and parse plot file headers and that build and refine boundary planes.

`IndexVectors`, `MeshBoxes` and `Basics` hold what several parts share.

`dafny verify dfyconfig.toml` checks everything.

## Conventions

- Real numbers are exact. Machine epsilon, the tight tolerance, the huge distance and the
  threshold velocity are parameters.
- A square root is passed as a value or function with the property that defines it.
- Resolved points (`ConvexHull.Resolved`) are points whose x-coordinates are the same or
  at least the tolerance apart and whose triples turn left by more than the tolerance or
  not at all. Integer coordinates are always resolved (`ConvexHull.GridPointsResolved`).
  The library sort is an insertion sort under the same comparator.
- Slopes come from the mesh library. They are two functions, and the boundary-aware one is
  assumed to agree with the plain one except in a flagged first or last cell of the domain
  (`MolFluxes.SlopesAgree`).
- Parallel loops over cells are `forall` statements, which assign every cell once.
- A field on a level is one array over its box. `FvmOperators.FieldOf` and
  `MolFluxes.CompFieldOf` are its values, of which the totals are taken.
- An abort is a result value, and the state is then left as it was before the call.
- Texts of numbers are functions of a codec that is lossless on the numbers it can
  represent (`PlotfileHeader.Lossless`). Corners of boxes are copies, as assigning a
  new box in the tools suggests.
- The extents of a cloud start from its first sample, where the code starts from the
  largest double.
- A run is a list of steps together with the setting it started from. Runs are stated past
  the delay time. A channel is timed when it writes by time and its output delay is over at
  every step; steady means in addition that the trigger tolerance is the same at every step
  and no step is longer than the interval.
- Filling the ghost cells of a field is a function that keeps the number of components and
  changes nothing when it is repeated (`TiogaExchange.Fills`).

## Findings

- `CanopyTrim.TrimmedIffBeyond`, src/physics/ForestDrag.cpp:180 and 470-480: a cell
  below a cloud is inside its footprint and under its canopy, but outside the padded box of
  its samples, and so gets no drag. With densities that are not negative, whatever the
  tolerance of the hull test, the trimming to the box changes a domain cell exactly when
  the cell is covered and, where the box holds it across, lies beyond the box and has a
  neighbour of positive density, or, where only the tolerance covers it, meets leaves.
  `CanopyTrim.TrimmedIffBeyondCloud` says it for the cells over a cloud, and
  `CanopyTrim.GroundCellIsTrimmed` has an example.
- `FieldRepo.FieldRepo.DeclareField`, src/core/FieldRepo.cpp:148: declaring a new, valid
  name with no states (zero or less) registers no field, but the look-up at the end enters
  the name under id zero; the first field of the repository is then returned for it, or
  none exists. Every other call keeps the invariant.
- `Runs.GrowingRunLosesOutput`, src/core/SimTime.cpp:354: while steps grow, the relative
  tolerance of the trigger grows with them, and an output time just after a step can be
  missed by both steps. `Runs.WritesOfRun` says how often every output time is written in
  any run, and `Runs.EachWrittenOnceIff` when each is written exactly once.
- `Runs.LastOutput`, `Runs.DelayedRunLeavesNoFile`, src/core/SimTime.cpp:384-411: the final
  triggers do not ask for the delay, so a last step at which an output falls due before the
  delay is over writes neither the regular nor the final file.
- `RhsUpdate.PostHocIsTrapezoidal`, `RhsUpdate.StretchedCellIsOvercorrected`,
  src/equation_systems/CompRHSOps.H:291: the explicit diffusion correction divides by the
  density alone, so with a mesh mapping it is off by the Jacobian. The source itself notes
  at src/incflo_advance.cpp:236 that Godunov is not adjusted for mesh mapping.
- `AmrexPlotFile.ReadHeader`, tools/amrex_plotfile.py:145: a header without components
  cannot be read back.
- `BoundaryPlane.SizesFitIffUniform`, tools/native_boundary_plane.py:49, and
  `BoundaryPlane.StraddlesIffTwo`, tools/native_boundary_plane.py:104: cell sizes are right
  on all levels exactly for one uniform ratio, and normal indices on high faces exactly for
  ratio two.
- `BoundaryPlane.RefinedIsFinerIff`, tools/native_boundary_plane.py:237-243 and 88-90:
  refining a plane by `r` is defining it from an input with `r` times the cells exactly on
  low faces or for `r` equal to one; on high faces the refined boxes keep the coarse indices
  across the plane, while all else agrees.
- `FvmSweeps.ChooseByDirectionIff`, `FvmSweeps.OneCellMixesSides`,
  src/fvm/fvm_utils.H:32-75: with a single cell in a direction that is not periodic, the
  side that is left there mixes with the other directions, but for two kinds of domain that
  the condition names.

## Model

| member | source | states |
|---|---|---|
| `ConvexHull.SortPoints` | src/physics/ForestDrag.cpp:46-53 | Under the comparator with its tolerance, sorting resolved points is a permutation of them in lexicographic order. |
| `ConvexHull.AddPoint` | src/physics/ForestDrag.cpp:61-68 | The popping loop takes a chain of the points seen so far to a chain of those points and the new one: it turns strictly left at every vertex and has every point on or to the left of every edge; used for both sweep directions. |
| `ConvexHull.BuildChain` | src/physics/ForestDrag.cpp:60-78 | One sweep over sorted points, forwards or backwards, leaves such a chain from the first point to the last. |
| `ConvexHull.ChainTriple` | src/physics/ForestDrag.cpp:62-76 | A chain that turns left at consecutive vertices turns left at every ordered triple of its vertices, near or far. |
| `ConvexHull.LeftOfChord` | src/physics/ForestDrag.cpp:60-84 | A point above the line between the ends of a chain is strictly to the left of every chord of the chain, which is what makes the two chains fit together. |
| `ConvexHull.JoinIsHull` | src/physics/ForestDrag.cpp:80-84 | Dropping the last point of both chains and joining them gives a polygon of input points that is strictly convex (all ordered triples turn left) and encloses every input point. |
| `ConvexHull.DegenerateIffCollinear` | src/physics/ForestDrag.cpp:80-85 | The joined polygon has fewer than three vertices if and only if all points lie on one line. |
| `ConvexHull.ComputeConvexHull2d` | src/physics/ForestDrag.cpp:37-86 | For any list of resolved points, in any order and with repetitions: fewer than three are returned as they are; otherwise the result is a hull, and it has fewer than three vertices exactly for collinear points. |
| `ConvexHull.GridPointsResolved` | src/physics/ForestDrag.cpp:47-64 | Points with integer coordinates are resolved by every tolerance strictly between zero and one, so the tests with a tolerance are exact on them. |
| `Forest.HullIsCounterClockwise` | src/physics/ForestDrag.cpp:439-448 | A strictly convex polygon with at least three vertices has a positive shoelace sum: the reversing branch is never taken after the hull computation. |
| `Forest.OrientCcw` | src/physics/ForestDrag.cpp:439-448 | The polygon is reversed exactly when its shoelace sum is negative. |
| `Forest.EdgeMeasuresArea` | src/physics/ForestDrag.cpp:453-465 | The half-space value of an edge at a point is the edge's cross product with that point, and its tolerance scale is at least one. |
| `Forest.HullEdges` | src/physics/ForestDrag.cpp:450-466 | One half-space edge per vertex, from it to the next one, the last to the first. |
| `Forest.PointInOnHull` | src/physics/ForestDrag.H:103-120 | The test passes exactly when no edge of the forest's own slice has the point beyond the tolerance; without edges it always passes. |
| `Forest.HullIsExact` | src/physics/ForestDrag.H:101-120 | A point is left of every edge of the hull if and only if it is an average of three cloud points: the half planes are the convex hull, no more and no less. |
| `Forest.StoredEdgesAreExact` | src/physics/ForestDrag.H:103-120 | With zero tolerance the stored edges let a point pass if and only if it is such an average. |
| `Forest.ToleranceIff` | src/physics/ForestDrag.H:103-120 | A point passes an edge with a tolerance exactly when some point within the tolerance of it along either axis is on the inner side, up to the tolerance in terms of the area. |
| `Forest.ReadRows` | src/physics/ForestDrag.cpp:402-417 | A file with a malformed row is refused; otherwise the samples come in file order, with bounds in all directions that hold every sample and that some samples reach. |
| `Forest.SamplesInOrder` | src/physics/ForestDrag.cpp:402-417 | The samples of a file are its rows of numbers, each at the place that the rows of numbers before it give it, and no others. |
| `Forest.ReadCloud` | src/physics/ForestDrag.cpp:379-466 | A cloud file is refused exactly for one of its faults (missing, malformed row, no points, collinear footprint); otherwise its samples are kept in file order and its edges are those of a hull of its footprint. |
| `Forest.AppendCloud` | src/physics/ForestDrag.cpp:383-481 | Appending a cloud gives its record the slices of samples and edges that it owns and the padded box of its samples, keeps all earlier records right, and leaves the slices laid end to end over the flattened arrays. |
| `Forest.ReadPointCloudForests` | src/physics/ForestDrag.cpp:356-501 | Reading all files aborts at the first faulty one and otherwise returns, for every file, a record with its number, coefficient, own samples, own edges and box, of which those whose index box meets a box of the level are kept. |
| `Forest.OwnPointsPass` | src/physics/ForestDrag.H:103-120 | Every sample of a cloud passes the inclusive hull test against its own forest's slice of edges. |
| `IndexBoxes.HoldsAlongIff` | src/utilities/index_operations.cpp:12-21 | The index range of a real span holds a cell exactly when the cell reaches beyond its low end and begins less than one cell beyond its high end, both cut to the domain. |
| `IndexBoxes.MeetsIff` | src/physics/ForestDrag.cpp:493-496 | The index box of a forest meets a box of cells exactly when they share a cell. |
| `Canopy.KNearestIsUnique` | src/physics/ForestDrag.cpp:230-258 | The nearest samples, in order of distance with ties in file order and at most `k`, are determined uniquely. |
| `Canopy.InsertSample` | src/physics/ForestDrag.cpp:240-257 | The shifting insertion puts distance, density and height into the first slot with a larger distance and moves the others up together; a sample no nearer than the last slot changes nothing. |
| `Canopy.ScanPoint` | src/physics/ForestDrag.cpp:232-258 | One step of the scan takes the right slots for the samples seen so far to the right slots with one more. |
| `Canopy.ScanNearest` | src/physics/ForestDrag.cpp:217-258 | After scanning a forest's slice the first `k` slots are its `k` nearest samples in order, each with its own density and height, padded with the huge distance. |
| `Canopy.MeanIsBetween` | src/physics/ForestDrag.cpp:276-290 | A weighted mean with positive weights lies between the bounds of its values. |
| `Canopy.WeighNeighbours` | src/physics/ForestDrag.cpp:276-290 | The inverse-distance loop skips padded slots and leaves the density on which the others pull equally: for the roots of squared distance plus softening, the differences from it divided by them add up to zero. |
| `Canopy.MeanIffBalances` | src/physics/ForestDrag.cpp:276-290 | The weighted mean that the loop computes is that balance, and no other value is. |
| `Canopy.LadIsMean` | src/physics/ForestDrag.cpp:271-291 | Where either interpolation branch fires the density lies between the smallest and the largest among the kept samples; elsewhere it is zero. |
| `Canopy.LadIffDensity` | src/physics/ForestDrag.cpp:260-291 | What the interpolation computes is the one density that is the nearest sample's on a sample, balances the neighbours by inverse distance below their top, and is zero otherwise. |
| `Canopy.NearerCountsMore` | src/physics/ForestDrag.cpp:276-290 | Between two neighbours of different density the result is strictly closer to that of the strictly nearer one. |
| `Canopy.InterpolateLad` | src/physics/ForestDrag.cpp:260-291 | From the scanned slots: the nearest sample's density on a sample, the balance of the neighbours by inverse distance below their top, zero above it. |
| `Canopy.ForestLad` | src/physics/ForestDrag.cpp:212-291 | A forest contributes to a cell only inside its footprint, by the density that its nearest samples balance there. |
| `Canopy.CellDrag` | src/physics/ForestDrag.cpp:173-303 | After all forests have been visited the drag of a cell is the sum of coefficient times density over the contributing forests, and its owner is the last of them; a forest contributes the density that its nearest samples balance where its index box holds the cell, and nothing elsewhere. |
| `Canopy.ContributionsAreUnique` | src/physics/ForestDrag.cpp:212-299 | Cell and clouds determine what every forest contributes. |
| `Canopy.DragWithout` | src/physics/ForestDrag.cpp:296-300 | Taking away the density of one forest takes its coefficient times that density from the drag, and nothing else. |
| `Canopy.OwnerIsLast` | src/physics/ForestDrag.cpp:296-300 | A forest with a density owns the cell when no later one has any. |
| `Canopy.DragBounds` | src/physics/ForestDrag.cpp:177-300 | Drag is between zero and the largest density times the sum of coefficients; a cell outside the footprint or the box of every forest has no drag and no owner. |
| `CanopyTrim.KeptForestsSuffice` | src/physics/ForestDrag.cpp:493-496 | In the cells of a level drag and owner are those of all forests together: the forests that the level does not keep reach none of them. |
| `CanopyTrim.KeptIffShared` | src/physics/ForestDrag.cpp:493-496 | A forest is kept for a level exactly when its index box shares a cell with some box of the level. |
| `CanopyTrim.HeldByCentre` | src/physics/ForestDrag.cpp:468-480 | On a mesh of cubes the box of a cloud holds a domain cell along an axis exactly when the centre is less than one cell below its samples or less than two above. |
| `CanopyTrim.TrimmingChanges` | src/physics/ForestDrag.cpp:178-181 | With densities that are not negative, in any cell the trimming to the box changes what a forest adds exactly when the cell is covered, outside the box, and meets leaves: on a sample of positive density, or off the samples, below the top of its neighbours, with one of them of positive density. |
| `CanopyTrim.TrimmedIffBeyond` | src/physics/ForestDrag.cpp:468-480 | With an interpolation length within the padding, for domain cells and any tolerance this means exactly: covered, and if the box holds the cell across, then the cell ends below the padded samples or begins a cell above them while still below ground, and a neighbour has positive density; if not, the cell meets leaves. |
| `CanopyTrim.TrimmedIffBeyondCloud` | src/physics/ForestDrag.cpp:468-480 | Under the same hypotheses, for a cloud as read, a domain cell whose centre is an average of cloud points is trimmed exactly beyond the box, with a neighbour of positive density; any other cell only if the tolerance is positive and covers it. |
| `CanopyTrim.GroundCellIsTrimmed` | src/physics/ForestDrag.cpp:180 | Under three crowns at height ten a cell near the ground would have the density one and gets none. |
| `Clock.NextMultipleIsFirst` | src/core/SimTime.H:20-24 | No multiple of the interval that is further ahead than the tolerance comes before the output time that the step is shortened to. |
| `Clock.ShortenedBySteps` | src/core/SimTime.cpp:220-251 | Over all enforced intervals at once: the step only shrinks, by no more than down to the tolerance, and crosses no due output time of any of them. |
| `Clock.QuadraticCfl` | src/core/SimTime.cpp:163-189 | A step within the linear CFL number satisfies src*dt^2 + cfl*(conv + diff)*dt <= cfl^2, the condition that number stands for. |
| `Clock.QuadraticAtLimit` | src/core/SimTime.cpp:163-189 | At the linear CFL number the quadratic condition is met with equality. |
| `Clock.ShorteningIsBounded` | src/core/SimTime.cpp:202-251 | With a tolerance recomputed after the last registration, enforcing outputs leaves at least the smaller of the limited step and that tolerance, and no enforced output time is crossed. |
| `Clock.AdaptiveStepIsGood` | src/core/SimTime.cpp:163-260 | Every adaptive step past the delay is positive, within the largest step, the growth limit, the stop time and the CFL limit, at least the smaller of the smallest step and the tolerance unless it lands on the stop time, and crosses no enforced output time. |
| `Clock.AdaptiveStepIsMaximal` | src/core/SimTime.cpp:163-260 | No adaptive step is shorter than its limits make it: where growth, largest step, stop time, initial step and output times do not bind with equality, the CFL condition does; an output time binds only if the step before shortening reaches its delay. |
| `Clock.InitialStepIsGood` | src/core/SimTime.cpp:191-260 | The initial step is positive, within the shrunk CFL number, the initial step that was asked for and all other limits. |
| `Clock.AbortsIff` | src/core/SimTime.cpp:163-216 | An adaptive step aborts exactly when velocities vanish without an initial step to stand in, or one of CFL, growth and largest step is below the smallest step. |
| `TimeControl.TolOverCovers` | src/core/SimTime.cpp:436-456 | The recomputed tolerance is no larger than the allowance of any enforced interval. |
| `TimeControl.TolOverIsReached` | src/core/SimTime.cpp:436-456 | It is the old tolerance or one of these allowances. |
| `TimeControl.SimTime.constructor` | src/core/SimTime.cpp:8-105 | A configuration that passes the checks starts a valid clock, with the tolerance computed over the checkpoint and plot intervals and the start indices and times that the input gives, or zero. |
| `TimeControl.SimTime.NewTimestep` | src/core/SimTime.cpp:108-155 | A step begins exactly when the limit of steps is not zero, the new time is further than the tolerance before a stop time, and the index is below a limit of steps; the step sizes shift, the index advances and the current time becomes the new time. |
| `TimeControl.SimTime.ShortenForOutputs` | src/core/SimTime.cpp:220-251 | The sequence of conditional shortenings, the loop over post-processing intervals included, is the shortening over all rules. |
| `TimeControl.SimTime.SetCurrentCfl` | src/core/SimTime.cpp:157-286 | The step taken is the specified one, in every mode, before and after the delay; it fails exactly where the code aborts, and then leaves the clock alone. |
| `TimeControl.SimTime.AdvanceTime` | src/core/SimTime.cpp:288-290 | The new time is the current time plus the step. |
| `TimeControl.SimTime.AddPostprocDtParameters` | src/core/SimTime.H:158-169 | A post-processing interval is added after those already there. |
| `TimeControl.SimTime.CalculateMinimumEnforceDtAbsTol` | src/core/SimTime.cpp:436-456 | The tolerance becomes the least of itself and the allowances of all enforced intervals. |
| `TimeControl.SimTime.SetRestartTime` | src/core/SimTime.cpp:413-434 | Index, time and the start indices and start times become those of the restart, except for the starts that the input sets. |
| `TimeLoop.TakeStep` | src/incflo.cpp:342-370 | One pass of the loop either stops on an abort of the step size or extends the run by a step that meets every limit, strictly nearer to the stop time if that bounds the run; channels that count steps are written exactly when the index is past the delay and a multiple of the interval after the start. |
| `TimeLoop.Evolve` | src/incflo.cpp:335-403 | For every sequence of CFL numbers the loop ends within an explicit number of steps. Without a fault it ends within the tolerance of the stop time or beyond, or with exactly the steps that the limit allows, whichever comes first, and every step was begun before either; with limit zero there is none. Every logged step is good, its outputs are what the triggers say, and the final outputs are those of the last step's state. |
| `Runs.TimeIsSumOfSteps` | src/core/SimTime.cpp:133-146 | Along every run the time gone by is the sum of the steps. |
| `Runs.StepsGrowGeometrically` | src/core/SimTime.cpp:196-200 | After `n` steps of an adaptive run the step is at most (1 + growth)^n times the first. |
| `Runs.RunLengthBound` | src/core/SimTime.cpp:202-251 | An adaptive run has fewer than (stop - start)/min(min_dt, tolerance) + 1 steps, never passes the stop time, and reaches it with its last step at most. |
| `Runs.EnforcedOutputIsHit` | src/core/SimTime.cpp:220-251 | For every due output time of an enforced interval that a run reaches, some step ends within the tolerance before it, and not after it. |
| `Runs.EnforcedOutputWriters` | src/core/SimTime.cpp:220-382 | Which step writes the file of an enforced output time: none before the step that ends within the allowance of it; that step exactly when what is left is within its trigger tolerance; the next one, if it passes the time, exactly when more was left than its own tolerance; no later one. A step that ends on the time writes it alone. |
| `Runs.OnBeatMeansNewIndex` | src/core/SimTime.cpp:350-365 | The fractional-part test of the trigger is the test that the number of the last output has changed over the step. |
| `Runs.OnBeatIffOutputInWindow` | src/core/SimTime.cpp:350-382 | The trigger fires exactly when an output time lies in the window between the step's beginning and its end, both shifted by the tolerance. |
| `Runs.WritesOfRun` | src/core/SimTime.cpp:350-382 | In any run of a timed channel, whatever its steps, an output time that goes by is written once, plus once for every pair of steps whose falling tolerance repeats it, less once for every pair whose growing tolerance misses it. |
| `Runs.EachWrittenOnceIff` | src/core/SimTime.cpp:352-365 | If no step is shorter than its tolerance or the one before, every output time that goes by is written exactly once if and only if none lies between the tolerances of two steps in a row, counted from their common time. |
| `Runs.GrowingRunLosesOutput` | src/core/SimTime.cpp:352-365 | A run of two steps, both chosen by the clock with growth of a tenth and a relative tolerance of a hundredth, in which the output at time one goes by and is not written. |
| `Runs.FilesMatchOutputTimes` | src/core/SimTime.cpp:350-382 | Over any stretch of a steady run as many files are written as output times go by. |
| `Runs.WrittenByCount` | src/core/SimTime.cpp:350-382 | Of a channel that counts steps, the step at a position of the log is written exactly when its index is past the delay and differs from the start index by a multiple of the interval. |
| `Runs.FilesByCount` | src/core/SimTime.cpp:350-382 | Such a channel has no file before its delay, and past it one for every interval that is completed, over any stretch of the run. |
| `Runs.OutputsExactlyOnce` | src/core/SimTime.cpp:350-382 | In a steady run, where no tolerances differ, every output time that goes by is written by exactly one step, and a step that writes does so for exactly one of them. |
| `Runs.LastOutput` | src/core/SimTime.cpp:384-411 | The final output never repeats the last step's; at the last step there is no output at all exactly when an output falls due, by index multiple or by an output time in the window, and the delay is not over. |
| `Runs.DelayedRunLeavesNoFile` | src/core/SimTime.cpp:384-397 | A run that ends on an output time before the delay is over writes neither the regular nor the final file. |
| `Runs.FinalOutputCompletesRun` | src/incflo.cpp:395-401 | Once the delay of a timed channel is over, the final file is written exactly when the last step's trigger did not fire. |
| `Runs.FinalFileByCount` | src/core/SimTime.cpp:384-411 | For a channel that counts steps, with its delay over, the final file is written exactly when the last step's was not. |
| `Stencils.TablesAreDirectional` | src/fvm/stencils.H:114-1478 | Each of the 27 tables is made of three one-dimensional rows, chosen by the side that its name gives for each direction. |
| `Stencils.AppliesTo` | src/fvm/stencils.H:149-1478 | A stencil applies to a cell exactly when the cell meets its side in each direction. |
| `FvmSweeps.ScheduleRises` | src/fvm/fvm_utils.H:30-76 | Whatever directions are periodic, the sweeps take their turns in one strict order of all 27 stencils. |
| `FvmSweeps.LaterIsMoreSpecific` | src/fvm/fvm_utils.H:30-76 | The sweeps go from interior over faces and edges to corners. |
| `FvmSweeps.ScheduledIffAllowed` | src/fvm/fvm_utils.H:30-76 | Exactly the stencils that are one-sided in no periodic direction are swept. |
| `FvmSweeps.SweepsLeave` | src/fvm/fvm_utils.H:30-76 | What the sweeps leave in any cell of any domain: at an end of a direction the high side where both ends meet, except for the earlier of exactly two directions. |
| `FvmSweeps.SweepsChooseByDirection` | src/fvm/fvm_utils.H:30-76 | The last stencil that applies to a cell is the one with the low, high or middle side of each direction on its own, for any domain with two cells in each direction that is not periodic. |
| `FvmSweeps.ChooseByDirectionIff` | src/fvm/fvm_utils.H:30-76 | The sweeps choose by direction in every cell of a domain if and only if no direction that is not periodic has a single cell, or x alone does with one other direction periodic and the third two cells wide, or y alone does with x periodic and z two cells wide. |
| `FvmSweeps.OneCellMixesSides` | src/fvm/fvm_utils.H:32-45 | A domain with a single cell in x whose cells get the high row away from the y ends and the low row at them. |
| `FvmSweeps.Sweep` | src/fvm/fvm_utils.H:30-45 | One sweep overwrites exactly the cells to which its stencil applies. |
| `FvmSweeps.Apply` | src/fvm/fvm_utils.H:19-78 | The ordered overwriting sweeps leave in every cell of every domain the operator with the rows that the order leaves, which are those of position and direction under the exact condition. |
| `FvmOperators.GradientExact` | src/fvm/gradient.H:39-66 | The gradient is exact for every field that is quadratic along each axis, with face values in ghost cells, in every cell up to faces, edges and corners. |
| `FvmOperators.QuadraticGradientExact` | src/fvm/gradient.H:39-66 | So it is for every quadratic polynomial in space, mixed terms included. |
| `FvmOperators.SlicesAreParabolas` | src/fvm/gradient.H:47-64 | A quadratic polynomial is a parabola along every axis, with the slope that the derivative has. |
| `FvmOperators.DivergenceExact` | src/fvm/divergence.H:35-77 | The divergence of such fields is exact in every cell; so is the Laplacian kernel. |
| `FvmOperators.FilterReproducesAffine` | src/fvm/filter.H:40-64 | The filter reproduces every field that is affine along each axis, in every cell. |
| `FvmOperators.FilterSmoothes` | src/fvm/filter.H:40-64 | On a field that is quadratic along each axis the filter adds a third of the curvature per cell along each axis, times a half inside and three sixteenths next to an end. |
| `FvmOperators.PeriodicTable` | src/fvm/fvm_utils.H:26-30 | In a fully periodic domain every cell gets the interior table. |
| `FvmOperators.PeriodicGradientVanishes` | src/fvm/gradient.H:39-66 | On a periodic box of any size each component of the gradient adds up to zero. |
| `FvmOperators.PeriodicDivergenceVanishes` | src/fvm/divergence.H:35-77 | On a periodic box of any size the divergence adds up to zero. |
| `FvmOperators.PeriodicFilterKeepsTotal` | src/fvm/filter.H:40-64 | On a periodic box of any size the filter preserves the total of the field. |
| `FvmOperators.Gradient` | src/fvm/gradient.H:26-67 | The swept gradient holds, in every cell of every domain, the kernel with the rows that the sweeps leave there, and those of the directions under the exact condition. On a periodic domain each component that the array holds adds up to zero; of every sampled quadratic polynomial it holds the derivatives. |
| `FvmOperators.Divergence` | src/fvm/divergence.H:22-78 | So does the swept divergence, and on a periodic domain the values in its array add up to zero. |
| `FvmOperators.Filter` | src/fvm/filter.H:28-65 | So does the swept filter, and on a periodic domain the values in its array have the total of the field. |
| `MolFluxes.HasExtdirOrHo` | src/utilities/bc_ops.cpp:14-26 | The two flags say whether some component has a face-valued or extrapolated type at the low and the high end. |
| `MolFluxes.BoundaryKernelOnlyWhenNeeded` | src/convection/incflo_mol_fluxes.cpp:61-64 | For a tile of the domain the boundary-aware kernel is chosen if and only if some face of the tile reads the slope of a flagged end cell. |
| `MolFluxes.TileDoesNotMatter` | src/convection/incflo_mol_fluxes.cpp:57-128 | The flux on a face is the one boundary-aware formula, whatever tile computes it and whichever kernel that tile chose. |
| `MolFluxes.LinearFieldIsCarried` | src/convection/incflo_mol_fluxes.cpp:88-105 | Where the values around a face lie on a line the flux is the line's value on the face times the velocity, on either upwind branch. |
| `MolFluxes.UpstreamOnly` | src/convection/incflo_mol_fluxes.cpp:101-107 | Above the threshold velocity the flux does not depend on the downstream cell. |
| `MolFluxes.FaceTakesUpstream` | src/convection/incflo_mol_fluxes.cpp:66-108 | Away from external faces the flux is the velocity times the reconstruction from upstream above the threshold, and times the mean of both sides below it; the slopes are told of external and extrapolated ends alike. |
| `MolFluxes.ComputeConvectiveFluxes` | src/convection/incflo_mol_fluxes.cpp:29-267 | The three face arrays of a tile end up with the boundary-aware flux in every component; on the first and the last face of the domain along each axis, where the end has an external type, that is the value stored beyond the face times the face velocity. |
| `MolFluxes.OutsideDecidesFace` | src/convection/incflo_mol_fluxes.cpp:78-85 | On such a face the arrays of two settings agree where that value and the velocity do, whatever the interior holds. |
| `MolFluxes.ComputeConvectiveRate` | src/convection/incflo_mol_fluxes.cpp:9-27 | Every cell of the tile holds the rate of its six face fluxes, and the other cells of the array are as they were. |
| `MolFluxes.RatesTelescope` | src/convection/incflo_mol_fluxes.cpp:20-26 | Over any box the rates add up to what the fluxes bring through its outer faces: interior faces cancel. |
| `MolFluxes.TilingConserves` | src/convection/incflo_mol_fluxes.cpp:9-267 | However the cells of a box are shared out among tiles, and whichever kernels these chose, the rates that are left in the array add up to the net inflow of the boundary-aware flux. |
| `MolFluxes.ClosedFluxesBringNothing` | src/convection/incflo_mol_fluxes.cpp:20-26 | Fluxes that are the same on the first and last face of every line, as on a periodic box, have no net inflow. |
| `MolFluxes.PeriodicFluxesClose` | src/convection/incflo_mol_fluxes.cpp:57-128 | Values, plain slopes and face velocities that repeat across every axis, without ends of a type with values on the face, have the same boundary-aware flux on the first and last face of every line of the domain. |
| `MolFluxes.PeriodicTilingConserves` | src/convection/incflo_mol_fluxes.cpp:9-267 | Of such data the rates in the array over the domain add up to nothing, for every tiling and every choice of kernels. |
| `MolFluxes.OutsideDecidesTotal` | src/convection/incflo_mol_fluxes.cpp:9-267 | With external ends all around, the sum of the rates in the array depends on the values beyond the ends and the velocities of the outer faces alone. |
| `MolFluxes.AdvectTile` | src/equation_systems/AdvOp_MOL.H:70-118 | A tile of the advection operator ends with the rate of the boundary-aware fluxes in every cell and component, of the field or of its product with the density; cells outside the tile are as they were. |
| `MolFluxes.InflowOfProduct` | src/equation_systems/AdvOp_MOL.H:77-92 | On an inflow face it is the product with the density in the ghost cell that is carried, where the equation multiplies by it. |
| `MolFluxes.Advect` | src/equation_systems/AdvOp_MOL.H:60-121 | The loop over tiles, which may overlap, leaves these rates in all of them; if the tiles make up the box, the whole array holds them and every component adds up to the net inflow. |
| `RhsUpdate.StepBalances` | src/equation_systems/CompRHSOps.H:103-135 | In every cell, for every treatment of diffusion, mask and Jacobian, density times volume times the new value is the old amount plus the step times the gain. |
| `RhsUpdate.SteadyTermsRepeatPredictor` | src/equation_systems/CompRHSOps.H:155-176 | When no term changed between the two times the corrector gives the predictor's value, for explicit, Crank-Nicolson and implicit diffusion alike. |
| `RhsUpdate.BlankedCellKeeps` | src/equation_systems/CompRHSOps.H:113-121 | A masked-out cell keeps its amount in predictor and corrector. |
| `RhsUpdate.PredictorRhs` | src/equation_systems/CompRHSOps.H:32-141 | The predictor leaves in every cell and component a value with that balance. |
| `RhsUpdate.CorrectorRhs` | src/equation_systems/CompRHSOps.H:149-265 | So does the corrector, with convection and diffusion weighted between the old and the new time. |
| `RhsUpdate.FilledValues` | src/equation_systems/CompRHSOps.H:103-247 | What is left in a cell: times the new density where the equation multiplies by it, and times the Jacobian for explicit diffusion alone, it is the old density, Jacobian and value plus the masked step times the rate. |
| `RhsUpdate.CorrectorLeavesNewDiffusion` | src/equation_systems/CompRHSOps.H:152-170 | Unless diffusion is explicit the array that the corrector leaves does not depend on the new diffusion, and for implicit diffusion not on the old one. |
| `RhsUpdate.PredictorReadsOneTime` | src/equation_systems/CompRHSOps.H:32-76 | The Godunov predictor reads convection and diffusion at the new time alone, the other one at the old time alone. |
| `RhsUpdate.ExplicitRk2PostHoc` | src/equation_systems/CompRHSOps.H:272-300 | The correction adds half a step of the change of diffusion to what each cell held. |
| `RhsUpdate.PostHocIsTrapezoidal` | src/equation_systems/CompRHSOps.H:272-300 | Explicit predictor and correction together are the trapezoidal rule for diffusion exactly when the Jacobian is one or the correction is zero: the correction does not divide by the Jacobian. |
| `RhsUpdate.StretchedCellIsOvercorrected` | src/equation_systems/CompRHSOps.H:285-297 | In a cell stretched to twice its size the correction adds twice what the trapezoidal rule would. |
| `RhsUpdate.StepBudget` | src/equation_systems/CompRHSOps.H:32-265 | Over any box the total amount changes by the step times the total gain, masks and Jacobians included. |
| `RhsUpdate.FilledBudget` | src/equation_systems/CompRHSOps.H:32-265 | So it does for the values that predictor or corrector leave in their array. |
| `RhsUpdate.CorrectorBudget` | src/equation_systems/CompRHSOps.H:149-265 | Without blanked cells the corrector's total gain is the average net inflow of old and new fluxes plus the sources, plus half of the old and half of the new diffusion if it is explicit, half of the old for Crank-Nicolson, none if it is implicit; interior fluxes do not enter. |
| `RhsUpdate.PredictorBudget` | src/equation_systems/CompRHSOps.H:32-141 | The predictor's total gain is convection and sources, plus all of the diffusion if it is explicit, half for Crank-Nicolson, none if it is implicit, with terms of the new time for Godunov schemes and of the old one otherwise. |
| `RhsUpdate.PeriodicCorrectorConserves` | src/equation_systems/CompRHSOps.H:149-265 | When the convection terms are what the advection operator left in its arrays at both times, of periodic data and by any tilings, and the sources and the part of diffusion that is used add up to nothing, then for every treatment of diffusion what the corrector leaves in its array has the total that the field had before, over the domain. |
| `FieldNames.MangledNamesAreReserved` | src/core/FieldUtils.H:73-78 | A stored name passes the check for declared names exactly when it is the plain name of a newest state. |
| `FieldNames.NamesAreInjective` | src/core/FieldUtils.H:44-65 | Two stored names agree only for the same base name and the same state. |
| `FieldNames.StoredNames` | src/core/FieldUtils.H:44-65 | How the stored names of the five states end. |
| `FieldRepo.StateKeepsConsistent` | src/core/FieldRepo.cpp:121-145 | Adding a state of a field keeps ids, names, shared information and all levels consistent; its name was free. |
| `FieldRepo.FieldRepo.constructor` | src/core/FieldRepo.H:91-93 | An empty repository is consistent. |
| `FieldRepo.FieldRepo.AllocateFieldData` | src/core/FieldRepo.cpp:434-458 | One array of the field's shape is added on every active level and on no other. |
| `FieldRepo.FieldRepo.AddState` | src/core/FieldRepo.cpp:121-145 | One more state is registered under the next free id, with its name and one array per live level. |
| `FieldRepo.FieldRepo.DeclareStates` | src/core/FieldRepo.cpp:115-145 | The states of a new field get consecutive ids from the newest on; earlier fields, names and arrays keep their places. |
| `FieldRepo.FieldRepo.DeclareField` | src/core/FieldRepo.cpp:86-149 | Every branch: a known name returns its field or is refused as inconsistent, exactly by components, states and location; too many states and reserved names are refused in that order; a new name adds its states: the newest alone, the old one from two on, the one before with three, no intermediate one. The invariant survives except for a new valid name without states, exactly: that enters the name under id zero. |
| `FieldRepo.FieldRepo.CreateState` | src/core/FieldRepo.cpp:499-523 | A missing state is added, an existing one is found; the result is always that state of the same field, and the invariant is kept. |
| `FieldRepo.StatesAreListed` | src/core/FieldRepo.cpp:115-145 | A base name has exactly the states that its shared information lists. |
| `FieldRepo.FieldRepo.GetField` | src/core/FieldRepo.cpp:151-166 | A look-up succeeds exactly when that field has that state, and finds no other. |
| `FieldRepo.FieldRepo.SetFillpatch` | src/core/Field.H:163-167 | Marking a field to be filled when levels are remade changes that mark alone. |
| `FieldRepo.FieldRepo.MakeNewLevelFromScratch` | src/core/FieldRepo.cpp:15-30 | A new level gets one zero array per field at its id, of its shape; other levels stay. A repository in step with a mesh is then in step with the mesh that has that level. |
| `FieldRepo.FieldRepo.FilledFabs` | src/core/FieldRepo.cpp:41-51 | The filling pass writes exactly the arrays of the fields that ask for it, each at its own id. |
| `FieldRepo.FieldRepo.MakeNewLevelFromCoarse` | src/core/FieldRepo.cpp:32-54 | A level made from the coarser one is consistent, filled where asked for and zero elsewhere, and in step with the mesh that has it. |
| `FieldRepo.FieldRepo.RemakeLevel` | src/core/FieldRepo.cpp:56-78 | So is a level made anew on other boxes, with the mesh on those boxes. |
| `FieldRepo.FieldRepo.ClearLevel` | src/core/FieldRepo.cpp:80-84 | Clearing a level leaves the others and the invariant; when all levels from one on are cleared in turn, the repository is in step with the mesh that ends there. |
| `TiogaMesh.LocalIdsAreUnique` | src/overset/TiogaInterface.cpp:331-352 | No two patches of a rank share a local id. |
| `TiogaMesh.LocalIdsHaveNoGaps` | src/overset/TiogaInterface.cpp:331-352 | On every rank the local ids are the numbers below the count of its patches, without gaps. |
| `TiogaMesh.CountGrids` | src/overset/TiogaInterface.cpp:303-317 | The counting pass finds the number of all patches and of this rank's patches. |
| `TiogaMesh.RecordGeometry` | src/overset/TiogaInterface.cpp:336-346 | Corners, size, position and cell size of a patch go to its own three entries; earlier patches are not disturbed. |
| `TiogaMesh.GeometrySpansPatch` | src/overset/TiogaInterface.cpp:336-346 | The recorded box of a patch reaches from the lower face of its first cell to the upper face of its last. |
| `TiogaMesh.MapLocalId` | src/overset/TiogaInterface.cpp:348-350 | The id map is extended by this rank's patches only, and stays within its length. |
| `TiogaMesh.AmrToTiogaMesh` | src/overset/TiogaInterface.cpp:294-362 | Every patch is recorded under its level, rank, local id and geometry, and the id map inverts the local ids: it takes the local id of each of this rank's patches back to its place among all patches. |
| `TiogaMesh.LocalData` | src/overset/TiogaInterface.cpp:207-240 | The data pointers of this rank's patches are handed over in the order of their local ids. |
| `TiogaMesh.DataMatchIds` | src/overset/TiogaInterface.cpp:207-352 | The data handed over for a local id belong to the patch that the id map names. |
| `TiogaExchange.OffsetsTile` | src/overset/TiogaInterface.cpp:159-202 | Running offsets tile the buffer: every component below the total belongs to a component of some variable, and none beyond. |
| `TiogaExchange.OffsetsNeverOverlap` | src/overset/TiogaInterface.cpp:159-202 | No buffer component belongs to two components of variables. |
| `TiogaExchange.Pack` | src/overset/TiogaInterface.cpp:153-168 | After packing, every listed variable is filled and stands in the buffer at its offset, later ones not disturbing earlier ones, and other fields are unchanged. |
| `TiogaExchange.Unpack` | src/overset/TiogaInterface.cpp:254-268 | After unpacking, the latest occurrence of every name holds its part of the buffer, filled, and other fields are unchanged. |
| `TiogaExchange.ExchangeRestores` | src/overset/TiogaInterface.cpp:122-284 | Unpacking an unchanged buffer gives every listed variable the values it had when packed, filled, whatever happened in between, and changes nothing else. |
| `TiogaExchange.TiogaInterface.RegisterSolution` | src/overset/TiogaInterface.cpp:122-207 | Registration succeeds exactly when all fields are known; then the listed fields are filled and both buffers hold all listed variables. |
| `TiogaExchange.TiogaInterface.UpdateSolution` | src/overset/TiogaInterface.cpp:246-291 | Both buffers are unpacked, with filling, and released. |
| `TiogaExchange.Exchange` | src/overset/TiogaInterface.cpp:122-291 | Registering and updating with nothing exchanged in between fills the listed fields and leaves all others as they were; names may be listed more than once, as cell and as node variables. |
| `HeaderText.NextLine` | tools/amrex_plotfile.py:47-56 | Reading a line gives the first line and leaves the others. |
| `HeaderText.SplitJoined` | tools/amrex_plotfile.py:142-147 | Splitting a written list gives its words back. |
| `HeaderText.StripKeepsWords` | tools/amrex_plotfile.py:64-71 | Stripping a line, of every character that Python counts as blank, does not change its words, marks blanked out or not. |
| `PlotfileHeader.DomainLineRead` | tools/amrex_plotfile.py:148-164 | The line with the index boxes of all levels, marks replaced and split, gives back nine numbers per box in order. |
| `PlotfileHeader.LayoutOfFront` | tools/amrex_plotfile.py:140-173 | By position: version, number of names, names, dimension, time, finest level, low bounds, high bounds, ratios, index boxes, steps. |
| `PlotfileHeader.LayoutOfBack` | tools/amrex_plotfile.py:175-190 | After them the cell sizes level by level, the coordinate system, the boundary width and the blocks of the levels. |
| `PlotfileHeader.LayoutOfLevel` | tools/amrex_plotfile.py:182-190 | A block has level, grid count and time, the step, low and high bound of every grid and direction, and the name of the data. |
| `PlotfileHeader.LayoutOfBox` | tools/amrex_plotfile.py:154-170 | The text of a single index box: low corner, high corner, cell-centred type. |
| `AmrexPlotFile.BoxesOf` | tools/amrex_plotfile.py:72-78 | From nine numbers per level the boxes of all levels are rebuilt; a line is refused exactly when it has fewer numbers than that. |
| `AmrexPlotFile.ReadLevels` | tools/amrex_plotfile.py:90-114 | The blocks of all levels come back with steps, grid extents and data names, for any number of levels and grids. |
| `AmrexPlotFile.ReadHeader` | tools/amrex_plotfile.py:47-114 | Of a written text the parser makes the same header again, exactly when there is at least one name. |
| `AmrexPlotFile.AmrexPlotFile.WriteHeader` | tools/amrex_plotfile.py:133-190 | The text is the lines of the header that the fields describe. |
| `AmrexPlotFile.AmrexPlotFile.ParseHeader` | tools/amrex_plotfile.py:47-114 | Parsing a written text fills the fields with that header if there is a name, and fails if there is none: the writer's empty line is then taken for the dimension. |
| `AmrexPlotFile.WriteThenParse` | tools/amrex_plotfile.py:47-190 | Writing from one file and parsing into another succeeds exactly with at least one name, and then transfers the whole header. |
| `BoundaryPlane.DivisorIsProduct` | tools/native_boundary_plane.py:46-51 | The last ratio to the power of the level equals the product of the ratios at every level exactly when all ratios are the same. |
| `BoundaryPlane.CellSizes` | tools/native_boundary_plane.py:46-51 | The cell sizes are the coarse one divided by that power. |
| `BoundaryPlane.LevelBoxes` | tools/native_boundary_plane.py:85-110 | On every level the box has all cells along the plane and two across it. |
| `BoundaryPlane.SizesFitIffUniform` | tools/native_boundary_plane.py:46-110 | Cell counts times cell sizes fill the plane on every level if and only if the refinement is uniform. |
| `BoundaryPlane.StraddlesIffTwo` | tools/native_boundary_plane.py:103-106 | On high faces the normal indices straddle the boundary on every level if and only if every ratio is two. |
| `BoundaryPlane.AdjustPlane` | tools/native_boundary_plane.py:55-68 | The adjusted bounds are two coarse cells around the face, and only the normal direction changes. |
| `BoundaryPlane.NativeBoundaryPlane.FromFile` | tools/native_boundary_plane.py:79-153 | A plane defined from an input has the adjusted bounds and, on every level, cell sizes and box by their formulas and one grid with two cells across the plane. |
| `BoundaryPlane.PlaneKeepsCellSizes` | tools/amrex_plotfile.py:232-237 | The coarse cell sizes worked out from the adjusted bounds and the plane's box are those of the domain, across the plane as well. |
| `BoundaryPlane.RefineTwice` | tools/native_boundary_plane.py:221-251 | Refining a plane by one ratio and then another gives the same geometry as refining by their product. |
| `BoundaryPlane.RefinedIsFinerIff` | tools/native_boundary_plane.py:221-251 | A plane refined by `r` has the whole geometry that it would have from an input with `r` times the cells if and only if it is on a low face or `r` is one. |
| `BoundaryPlane.RefineKeepsExtent` | tools/native_boundary_plane.py:221-251 | Refinement keeps the length that the cells span along the plane, and the centre across it. |
| `BoundaryPlane.NativeBoundaryPlane.Refine` | tools/native_boundary_plane.py:221-251 | The nested loops over levels, directions and grids refine the geometry as specified. |

## Left out

- Floating-point rounding: all arithmetic is exact, and tolerances are kept as parameters.
- Legacy cylindrical forests (`lm`, `area_fraction`): closed formulas with powers and exponentials.
- Text of point-cloud rows: a row is a comment, four numbers or malformed; how characters become numbers is not modelled.
- Points that are not resolved: for points closer than the tolerance the comparator need not be an order, and what the library sort does then is not fixed.
- Runs before the delay time: the delayed step bypasses the stop time and the output limits. `SetCurrentCfl` models it, the run lemmas start after it.
- Change of the step by an overset driver between CFL calculation and advance, and printing.
- Input files and their defaults: parameters are given, and the checks on them are `Accepted`.
- Regridding, fixed-point iterations and the physics inside a step: the loop sees a sequence of CFL numbers.
- Loops over levels around the stencil sweeps and the right-hand sides: they repeat the same work on separate arrays, so one level is modelled.
- Strain rate, vorticity, the Q-criterion and the nonlinear sum: further kernels over the same sweeps.
- Velocities on faces, Godunov fluxes and mesh projection: done by libraries.
- Work arrays of the advection operator for the product of density and field: the product is formed where it is read.
- Stages of an implicit diffusion solve: `StepBalances` says what the solver is given.
- Integer fields, scratch fields and mesh-mapping fields of the repository: the same bookkeeping with one state.
- Shared-pointer ownership of field information: information is held in a list and fields refer to it by position.
- Blanking data and device copies of the overset interface: copies of the same arrays.
- `TiogaInterface`: variables are held as values, so that the buffer and the fields cannot share storage; the device copy of the buffer, which holds the same values, is not kept apart.
- `NativeBoundaryPlane`: arrays of cell data and their distribution are not modelled, only the geometry; orientations other than 0 to 5 raise in the tools and are excluded by type.
- Number formatting: integers and doubles print and parse losslessly by assumption; ratios printed with 17 digits must be below 10^17.
- Header files that were not written by the writer: the parser's checks are kept, but nothing is stated about what it makes of them.
- Reading and writing of the field data beside the header.
