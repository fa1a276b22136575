# pxu-gui: sheet tracking and cut bookkeeping, modelled in Dafny

pxu-gui shows the kinematics of a string excitation in four complex planes:
the momentum p, the spectral parameters x+ and x-, and the rapidity u. The
maps between these planes are multi-valued, so the program tracks which
sheet a point is on. This record, the sheet data, holds the branches of the
logarithms, the sign of the energy, and the position relative to the short
and long u cuts. When a move of a point crosses a cut, the cut's type decides
how the sheet data changes.

This project models the discrete side of that machinery:

- how a point is created, moved (all or nothing) and compared with another point's sheet;
- the cut descriptors: conjugation, shifting, first intersection with a move, visibility;
- a state of several points, where moving one point re-anchors its neighbours;
- the contour generator: a queue of commands that builds grid lines and cuts one step at a time;
- the caches of the older root crate;
- the small structures around them: editable paths, the path registry of
  the path-making tool, contour cropping and path splitting in the LaTeX
  figure writer, the plot state, and the presentation viewer (eased
  transitions, rebuild check, frame navigation).

Complex numbers are pairs of reals. The transcendental maps (x+, x-, u and
the energy on a sheet), Newton's root finder, the interpolators of the
generator, and the crossing maps of the short u cuts are not computed. They
are fields of records of functions that every operation takes as a
parameter: `Kin`, `Maps`, `Interpolators`, `Scripts`.

Files and modules:

- `wrappers.dfy` (Wrappers): `Option` and `Result`.
- `complex.dfy` (Complex): complex numbers and Rust's `round`, `signum` and saturating `as i32`.
- `kinematics.dfy` (Kinematics): planes, sheet data, points and the numerical oracle.
- `point.dfy` (PointModel): pxu/src/point.rs.
- `cut.dfy` (CutModel): pxu/src/cut.rs.
- `state.dfy` (StateModel): pxu/src/state.rs.
- `path.dfy` (PathModel): pxu/src/path.rs.
- `lib.dfy` (PxuLib): pxu/src/lib.rs.
- `contour_cuts.dfy` (ContourCuts): the cuts, conditions, branch points and `PxuPoint` of pxu/src/pxu.rs.
- `contour_generator.dfy` (ContourGeneration): the `ContourGenerator` of pxu/src/pxu.rs, a class with the source's fields (the runtime context of the interpolators and the cut being computed, and the build-time description of the next cut, are one field each); `Value()` collects them into a `Generator` value on which `Exec` and the queue-building functions are stated.
- `legacy_pxu.dfy` (LegacyPxu): src/pxu.rs.
- `path_provider.dfy` (PathRegistry) and `text.dfy` (Text): make-paths/src/path_provider.rs.
- `fig_writer.dfy` (FigWriter): latex-figures/src/fig_writer.rs.
- `plot.dfy` (PlotModel): plot/src/plot.rs.
- `presentation.dfy` (PresentationDescription): presentation/src/presentation_description.rs.
- `build.dfy` (PresentationBuild): presentation/src/build.rs.
- `app.dfy` (PresentationApp): presentation/src/app.rs.

The crates come from different stages of the project and are modelled
against their own definitions. They are not reconciled:

- pxu/src/pxu.rs has a sheet record with integer u branches and no Im-sign pair.
- src/pxu.rs has a sheet record `(log_branch, log_branch_sum, e_branch)`.
- pxu/src/lib.rs looks paths up by a `name` field that the `Path` of pxu/src/path.rs does not have. `PathModel.Path` carries the name.

Where the code and its description differ, the model follows the code:

- In the black plot theme `draw_cuts` draws every visible cut black, the `ULongNegative` cuts included. Only the normal theme skips them.
- presentation/src/app.rs reads a plot description's origin as a `Value` of a point. The `PlotDescription` of presentation/src/presentation_description.rs has a plain optional origin. `PresentationApp.PlotDescription` follows app.rs.

## Model

| member | source | states |
|---|---|---|
| Complex.Round | pxu/src/point.rs:76 | `f64::round`: the result is within 1/2 of x, and a tie goes away from zero |
| Complex.Signum | src/pxu.rs:576-580 | `f64::signum` is always +1 or -1, and +1 exactly when x >= 0 |
| Complex.IntSignum | src/pxu.rs:576-580 | `i8::signum` is 0, 1 or -1 according to the sign of n |
| Complex.SaturateI32 | pxu/src/point.rs:27 | `as i32` saturates: the result is in the i32 range, equals n inside it, and is clamped outside |
| Kinematics.ComponentConjInvolution | pxu/src/pxu.rs:25-34 | conjugation of a plane swaps Xp and Xm, fixes exactly P and U, and is an involution |
| PointModel.Get | pxu/src/point.rs:171-178 | `Point::get` returns the coordinate of the requested plane: p, u, x+ or x- |
| PointModel.NewPoint | pxu/src/point.rs:24-54 | `Point::new`: log_branch_p 0, log_branch_m the saturated floor of Re p, e_branch 1, im_x_sign (1,1); both u branches Outside iff log_branch_m >= 0, Between iff -1, Inside otherwise; coordinates on that sheet |
| PointModel.CrossETwice | pxu/src/point.rs:190-192 | an E cut negates e_branch, so crossing it twice gives the sheet back |
| PointModel.CrossCutFrame | pxu/src/point.rs:187-239 | each cut type changes only its own field; Log(Xp) moves log_branch_p by +1 when Im x+ >= 0 and -1 otherwise, and Log(Xm) moves log_branch_m by +1 when Im x- <= 0; ULongNegative, DebugPath and P/U cuts change nothing |
| PointModel.CrossAllLogCounts | pxu/src/point.rs:217-230 | over one update every log cut of a plane is crossed in the same direction, so the log branch moves by the number of such cuts |
| PointModel.CrossAllSignCounts | pxu/src/point.rs:190-192 | e_branch and the two Im signs flip once per E or ULongPositive cut of their plane |
| PointModel.CrossAllECount | pxu/src/point.rs:190-192 | e_branch is negated once per E cut crossed |
| PointModel.CrossAllXpSignCount | pxu/src/point.rs:190-192 | the x+ Im sign is negated once per ULongPositive(x+) cut crossed |
| PointModel.CrossAllXmSignCount | pxu/src/point.rs:190-192 | the x- Im sign is negated once per ULongPositive(x-) cut crossed |
| PointModel.CrossAllKeepsUBranch | pxu/src/point.rs:193-216 | without a scallion or kidney cut of Xp (Xm), u_branch.0 (u_branch.1) is unchanged |
| PointModel.Shifted | pxu/src/point.rs:56-121 | `shifted` accepts p exactly when it is present and passes the Re/Im jump and near-integer guards; the result has that p, the given sheet and the coordinates on it; x+, x- and u jumps never refuse |
| PointModel.ShiftedIgnoresOldCoordinates | pxu/src/point.rs:56-121 | only the old p matters to `shifted`; the old x+, x-, u and sheet do not |
| PointModel.FirstMinIsFirstMinimum | pxu/src/point.rs:261-264 | `min_by_key` returns None only for no candidates, and otherwise the first candidate with the least key |
| PointModel.CandidatesOnSheet | pxu/src/point.rs:250-260 | every accepted candidate lies on the crossed sheet and passes the guards; in the p plane it is the requested value |
| PointModel.CandidatesUniform | pxu/src/point.rs:241-260 | in the p plane every guess gives the same candidate |
| PointModel.UpdateResultSheet | pxu/src/point.rs:180-273 | an accepted update lands on the sheet reached by crossing the cuts, passes the guards, and in the p plane reaches the requested p |
| PointModel.UpdatePSucceeds | pxu/src/point.rs:180-273 | moving in the p plane succeeds exactly when the new p passes the guards of `shifted` |
| PointModel.CrossCuts | pxu/src/point.rs:187-239 | the crossing loop computes the sheet after crossing the cuts in order |
| PointModel.Update | pxu/src/point.rs:180-273 | `Point::update` is all or nothing: false leaves the point unchanged; true replaces it by the best candidate on the crossed sheet |
| PointModel.BestCandidate | pxu/src/point.rs:242-267 | the guess loop returns the first accepted candidate of least key over the guesses in order, as `min_by_key` does |
| PointModel.IsSameReflexiveSymmetric | pxu/src/point.rs:287-340 | `is_same` is reflexive and symmetric in every plane, and in the p plane compares only e_branch |
| PointModel.IsSameUTransitive | pxu/src/point.rs:294-308 | in the u plane sameness is also transitive |
| PointModel.IsSameXmMirrorsXp | pxu/src/point.rs:309-339 | the x- rule is the x+ rule applied to the sheets with their log and u branches swapped |
| PointModel.SameSheet | pxu/src/point.rs:276-280 | two points with equal sheet data are on the same sheet in every plane |
| CutModel.CutTypeConjInvolution | pxu/src/cut.rs:140-153 | `CutType::conj` is an involution that fixes exactly E, DebugPath and the P/U cut types |
| CutModel.ConditionConjInvolution | pxu/src/cut.rs:177-186 | condition conjugation is an involution that swaps ImXp with ImXm and UpBranch with UmBranch |
| CutModel.ImSignZeroNeverHolds | pxu/src/cut.rs:166-175 | an Im-sign condition with sign 0 never holds, because the sign of a float is +1 or -1 |
| CutModel.ReverseConj | pxu/src/cut.rs:41-55 | the conjugate path has the same length and is the reversed path with every vertex conjugated |
| CutModel.CutConjInvolution | pxu/src/cut.rs:41-55 | `Cut::conj` keeps periodic and p_range and the path length, and conj of conj is the original cut |
| CutModel.ShiftConjInvolution | pxu/src/cut.rs:57-70 | reflecting a cut in the line through dz twice gives it back |
| CutModel.Shift | pxu/src/cut.rs:72-81 | `shift` adds dz to every vertex and to the branch point and changes nothing else |
| CutModel.TranslatedInverse | pxu/src/cut.rs:72-81 | shifting by dz and then by -dz gives the cut back |
| CutModel.ConjTranslatedCommute | pxu/src/cut.rs:41-81 | conjugating a shifted cut is shifting the conjugate by the conjugate shift |
| CutModel.SegmentHitOnBoth | pxu/src/cut.rs:100-122 | a reported hit is a point of both the move and the cut segment |
| CutModel.SegmentHit | pxu/src/cut.rs:100-122 | parallel segments (cross product zero) never hit |
| CutModel.SegmentHitComplete | pxu/src/cut.rs:100-122 | conversely, every common point of two non-parallel segments is reported, with its parameter along the move |
| CutModel.FirstHitIsFirst | pxu/src/cut.rs:100-122 | the hit found is at the first window of the path that the move crosses |
| CutModel.FindIntersection | pxu/src/cut.rs:100-122 | `find_intersection` scans the windows in order and returns the first hit, with t in [0,1] and a valid window index |
| CutModel.PeriodicHitIsFirst | pxu/src/cut.rs:83-98 | the shifts are tried in order and the first shift under which the move meets the cut wins |
| CutModel.Intersection | pxu/src/cut.rs:83-98 | a periodic cut is tried under the shifts n period for n = -5..5, any other cut only unshifted |
| CutModel.AllHold | pxu/src/cut.rs:124-126 | true iff every condition of the list holds at the point |
| CutModel.IsVisible | pxu/src/cut.rs:124-126 | a cut is visible iff all its conditions hold, so a cut without conditions is always visible |
| StateModel.NextValue | pxu/src/state.rs:75-80 | with at most one crossing the step goes to the final value; otherwise to a point on the segment towards it |
| StateModel.UpdatePointPReachesFinal | pxu/src/state.rs:64-95 | a successful update in the p plane ends at the requested p |
| StateModel.UpdatePointWithoutCrossings | pxu/src/state.rs:82-94 | without crossings `update_point` is one all-or-nothing `Point::update` with no cuts |
| StateModel.UpdatePoint | pxu/src/state.rs:64-95 | the loop of `update_point` computes its specification: stop with false at the first failed update, with true once the final value is reached |
| StateModel.Forward | pxu/src/state.rs:116-130 | the ascending loop changes only the points it visits |
| StateModel.Backward | pxu/src/state.rs:132-146 | the descending loop changes only the points it visits |
| StateModel.UpdatePointsSpec | pxu/src/state.rs:97-149 | `update_points` keeps the number of points |
| StateModel.ForwardConjunction | pxu/src/state.rs:105-148 | the result of the ascending re-anchoring loop is the conjunction of its per-point results |
| StateModel.BackwardConjunction | pxu/src/state.rs:105-148 | the result of the descending re-anchoring loop is the conjunction of its per-point results |
| StateModel.UpdatePointsConjunction | pxu/src/state.rs:105-148 | `update` succeeds iff the active point moves and, when locked, every point after it and every point before it re-anchors |
| StateModel.UpdatePointsMovesActive | pxu/src/state.rs:107-115 | the active point is moved first by the requested update; when unlocked nothing else changes |
| StateModel.DerivePoint | pxu/src/state.rs:48-56 | the inner loop of `State::new` makes a point from a copy of its predecessor as `Derive` says |
| StateModel.State.Value | pxu/src/state.rs:7-12 | `State::clone` copies the points and the unlocked flag |
| StateModel.UTarget | pxu/src/state.rs:31-32 | one step aims at u0 when it is within a quarter, and otherwise moves exactly a quarter towards it |
| StateModel.MaxUSteps | pxu/src/state.rs:28-29 | no steps are allowed when u is already within a quarter of u0 |
| StateModel.ApproachUNear | pxu/src/state.rs:30-37 | if some step of the first point ends within 0.01 of u0, the loop stops within 0.01 of u0 |
| StateModel.ApproachUFar | pxu/src/state.rs:30-37 | if no step ends within 0.01 of u0, the loop takes all its steps |
| StateModel.ApproachFirst | pxu/src/state.rs:27-37 | the u loop of `State::new` computes `ApproachU`: at most `max_steps` update steps, stopping after the first one that ends near u0 |
| StateModel.State.New | pxu/src/state.rs:15-62 | `State::new(m)` has exactly m points and is locked; the first point is the new point at p0 after the u approach, and point i is derived from point i-1 |
| StateModel.State.UpdatePoints | pxu/src/state.rs:97-149 | the method computes `UpdatePointsSpec`; its frame is the points alone, so `unlocked` is kept |
| StateModel.State.ReanchorForward | pxu/src/state.rs:116-130 | the ascending loop moves points active+1.. with x+ targets from their predecessors |
| StateModel.State.ReanchorBackward | pxu/src/state.rs:132-146 | the descending loop moves points active-1..0 with x- targets from their successors |
| StateModel.State.Update | pxu/src/state.rs:151-160 | `update` is `update_points` |
| StateModel.SumPAdditive | pxu/src/state.rs:162-164 | the total momentum of a concatenation is the sum of the totals |
| StateModel.SumEnAdditive | pxu/src/state.rs:166-171 | the total energy of a concatenation is the sum of the totals |
| StateModel.SumPUpdate | pxu/src/state.rs:162-164 | replacing one point changes the total momentum by the change of its p |
| PathModel.TrackOfEqualStates | pxu/src/path.rs:44-50 | the track of point i has one entry per state, and entry j is the component of point i in state j |
| PathModel.EditablePath.Default | pxu/src/path.rs:25-32 | the default path has no states and component P |
| PathModel.EditablePath.Clear | pxu/src/path.rs:35-37 | `clear` empties the states and keeps the component |
| PathModel.EditablePath.Push | pxu/src/path.rs:55-57 | `push` appends a copy of the state and keeps the earlier ones |
| PathModel.EditablePath.Get | pxu/src/path.rs:39-53 | `get` is empty without states, else has one track per point of the first state, each the component along the states in order |
| PxuLib.NewPxu | pxu/src/lib.rs:33-40 | `Pxu::new` stores the constants, a default state and no paths |
| PxuLib.FindPath | pxu/src/lib.rs:42-44 | `find` returns None iff no path has the name, and otherwise the first path with that name |
| PxuLib.GetPathByName | pxu/src/lib.rs:42-44 | the path returned has the requested name and belongs to the `Pxu`; None iff no path has it |
| ContourCuts.Initial | pxu/src/pxu.rs:2045-2069 | `PxuPoint::new`: log_branch_p 0, log_branch_m the saturated floor of Re p, e_branch 1, u branches (1,1) or (-1,-1) by the sign of log_branch_m, coordinates consistent with the sheet |
| ContourCuts.Accept | pxu/src/pxu.rs:2090-2150 | `try_set` accepts iff p is present and no jump is too large; it then stores p, the sheet and coordinates consistent with them |
| ContourCuts.CrossTwice | pxu/src/pxu.rs:2237-2267 | crossing a non-log cut twice gives the sheet back; crossing a log cut twice moves its branch by two in the direction read off Im x+ (Im x-); long u, kidney and debug cuts change nothing |
| ContourCuts.FirstAcceptedFound | pxu/src/pxu.rs:2269-2289 | the guess loop succeeds iff some guess is accepted, and then lands on the crossed sheet consistently |
| ContourCuts.UpdatePOutcome | pxu/src/pxu.rs:2236-2290 | a p-plane update succeeds iff the jump is small, and then reaches the requested p on the crossed sheet |
| ContourCuts.FirstAcceptedInP | pxu/src/pxu.rs:2269-2289 | in the p plane the first guess decides |
| ContourCuts.PxuPoint.New | pxu/src/pxu.rs:2045-2069 | the new point is `Initial(p, consts)` |
| ContourCuts.PxuPoint.TrySet | pxu/src/pxu.rs:2090-2150 | `try_set` changes the point exactly as `Accept` says and leaves it unchanged on false |
| ContourCuts.PxuPoint.Update | pxu/src/pxu.rs:2236-2290 | `update` moves the point to the first accepted guess, or leaves it unchanged |
| ContourCuts.CombinedConditions | pxu/src/pxu.rs:1878-1906 | `ImXpOrUpBranch`/`ImXmOrUmBranch` test the Im sign with long cuts and the u branch otherwise; LongCuts and ShortCuts are complementary |
| ContourCuts.ConditionConjInvolution | pxu/src/pxu.rs:1908-1922 | condition conjugation is an involution |
| ContourCuts.ConjCheckMirror | pxu/src/pxu.rs:1878-1922 | the conjugate condition holds at the mirrored point iff the condition holds at the point |
| ContourCuts.ConjConditions | pxu/src/pxu.rs:1953-1970 | every condition of a conjugate cut is the conjugate of the original's |
| ContourCuts.ConjConditionsInvolution | pxu/src/pxu.rs:1953-1970 | conjugating the conditions twice gives them back |
| ContourCuts.CutConjInvolution | pxu/src/pxu.rs:1953-1970 | `Cut::conj` is an involution |
| ContourCuts.ShiftConjInvolution | pxu/src/pxu.rs:1972-1988 | `shift_conj` by dz twice gives the cut back |
| ContourCuts.TranslatedInverse | pxu/src/pxu.rs:1990-2001 | shifting by dz and by -dz gives the cut back |
| ContourCuts.TranslatedZero | pxu/src/pxu.rs:1990-2001 | a zero shift changes nothing |
| ContourCuts.Shift | pxu/src/pxu.rs:1990-2001 | `shift` translates every path and the branch point |
| ContourCuts.FirstPathHitIsFirst | pxu/src/pxu.rs:2003-2027 | the hit found is in the first path, at the first window, that the move crosses |
| ContourCuts.Intersection | pxu/src/pxu.rs:2003-2027 | `intersection` returns the first hit over the paths in order |
| ContourCuts.PathsIntersection | pxu/src/pxu.rs:2010-2025 | the nested loop over the paths and their windows finds the first hit as `FirstPathHit` says |
| ContourCuts.AllHold | pxu/src/pxu.rs:2029-2032 | true iff every condition holds |
| ContourCuts.IsVisible | pxu/src/pxu.rs:2029-2032 | visible iff all conditions hold; no conditions means always visible |
| ContourCuts.BranchPointMassRelations | pxu/src/pxu.rs:193-209 | each ImXmPositive branch-point mass is the negation of the matching ImXmNegative one; the negative-axis masses from above and below are the positive-axis mass plus and minus k |
| ContourCuts.ComputeBranchPoint | pxu/src/pxu.rs:211-250 | a result exists iff the root finder succeeds; it has the mass of `branch_point_mass`, the requested type and p in [0,1] |
| ContourGeneration.FirstSplit | pxu/src/pxu.rs:621-634 | a split point names an existing path and window of the cut |
| ContourGeneration.ExecFrame | pxu/src/pxu.rs:362-681 | executing a command never touches the queue, the constants or the builder; only PushCut and SplitCut change the cuts; without constants nothing changes |
| ContourGeneration.ExecPushCut | pxu/src/pxu.rs:582-609 | with a path, PushCut appends exactly two cuts and keeps the rest of the generator; the last is the new cut shifted by the u shift of its range; outside the u plane the first is the conjugate of the second; without a path nothing changes |
| ContourGeneration.SplitCutsOutcome | pxu/src/pxu.rs:611-679 | SplitCut replaces the last two cuts: by four when the path crosses the cut (the pieces share the hit point and together are the old path), else by the cut's conjugate and the cut |
| ContourGeneration.FlipVisibilityTwice | pxu/src/pxu.rs:645-662 | flipping the u-branch conditions of a split piece twice gives them back; P and U cuts keep them |
| ContourGeneration.Visits | pxu/src/pxu.rs:740-781 | the visit order of p ranges starts at the point's own range |
| ContourGeneration.VisitsMembers | pxu/src/pxu.rs:750-760 | a range is visited iff it is the own range, or within n of it without leaving [-3, 3] |
| ContourGeneration.VisitsOrder | pxu/src/pxu.rs:750-760 | ranges are visited by growing distance, the lower before the upper |
| ContourGeneration.VisitsCoverRange | pxu/src/pxu.rs:740-781 | the corrected loop visits every range of [-3, 3] and nothing outside it |
| ContourGeneration.AsWrittenMissesOppositeEnd | pxu/src/pxu.rs:750-760 | the loop as written never reaches range 3 from -3 nor -3 from 3 |
| ContourGeneration.UGridShape | pxu/src/pxu.rs:783-790 | the u grid has 2n+1 lines and is symmetric about 0 |
| ContourGeneration.XLinesCount | pxu/src/pxu.rs:792-795 | the x grid of a range has one line per integer m in [r k, (r+1) k) |
| ContourGeneration.UpdateOutcome | pxu/src/pxu.rs:268-288 | `update` regenerates the queue when the constants change, executes at most one command, and returns whether the queue is empty |
| ContourGeneration.ProgressOf | pxu/src/pxu.rs:306-312 | progress is (done, total) with done <= total, (0,1) before any generation, and done == total iff the queue is empty |
| ContourGeneration.Filter | pxu/src/pxu.rs:321-334 | `filter` keeps exactly the cuts that pass, in order |
| ContourGeneration.VisibleCuts | pxu/src/pxu.rs:321-334 | the visible cuts are those of the plane whose conditions hold |
| ContourGeneration.VisibilityIgnoresU | pxu/src/pxu.rs:321-334 | shifting u by the log-branch period changes no visibility |
| ContourGeneration.CrossedCuts | pxu/src/pxu.rs:336-360 | the crossed cuts are the visible ones that the shifted move intersects |
| ContourGeneration.ContourGenerator.Default | pxu/src/pxu.rs:177-190 | the default generator is empty and has no constants |
| ContourGeneration.ContourGenerator.Progress | pxu/src/pxu.rs:306-312 | as `ProgressOf` |
| ContourGeneration.ContourGenerator.Clear | pxu/src/pxu.rs:290-304 | `clear` empties the queue, grids and cuts and sets the single real p grid line |
| ContourGeneration.ContourGenerator.Update | pxu/src/pxu.rs:268-288 | the method computes `UpdateSpec` |
| ContourGeneration.ContourGenerator.Prepare | pxu/src/pxu.rs:269-281 | regeneration on changed constants |
| ContourGeneration.ContourGenerator.Add | pxu/src/pxu.rs:683-686 | `add` appends one command to the back of the queue; its frame is the queue alone, so nothing else changes |
| ContourGeneration.ContourGenerator.AddAll | pxu/src/pxu.rs:683-686 | a run of `add` calls appends its commands to the queue in order and changes nothing else |
| ContourGeneration.ContourGenerator.CreateCut | pxu/src/pxu.rs:1057-1064 | `create_cut` sets the builder's component and type, keeps its visibility list, and touches nothing but the builder |
| ContourGeneration.ContourGenerator.AddVisibility | pxu/src/pxu.rs:1066-1168 | each visibility builder appends its condition to the builder's list and touches nothing but the builder |
| ContourGeneration.ContourGenerator.PushCutCommand | pxu/src/pxu.rs:1032-1051 | `push_cut` queues one PushCut carrying the builder's component, type and visibility exactly when both component and type are set (otherwise the queue is unchanged), and always leaves the builder empty |
| ContourGeneration.ContourGenerator.GenerateXpLogCut | pxu/src/pxu.rs:1177-1186 | the first cut of `generate_cuts` queues ClearCut, the path (-inf, 0] with branch point 0, and PushCut of Log(Xp) visible on log branch r |
| ContourGeneration.ContourGenerator.GenerateUGrid | pxu/src/pxu.rs:783-790 | `generate_u_grid` queues the u grid of 100 lines each side |
| ContourGeneration.ContourGenerator.GenerateXGrid | pxu/src/pxu.rs:792-804 | `generate_x_grid` queues the x grid of one range |
| ContourGeneration.ContourGenerator.GenerateCommands | pxu/src/pxu.rs:740-781 | `generate_commands` queues the u grid, then the cuts of every range in visit order, then the x grids, then the p grids, and changes nothing else (ranges at distances 1 to 6, the corrected loops) |
| ContourGeneration.ContourGenerator.AddForRanges | pxu/src/pxu.rs:750-760 | the range loop appends the commands of the own range and then of each pair of ranges at growing distance; by `RangeCommandsVisits` this is the visit order (distances 1 to 6, the corrected bound) |
| ContourGeneration.ContourGenerator.GenerateXGrids | pxu/src/pxu.rs:762-771 | the x-grid loop appends the x grids of the ranges in the same order as the cut loop (distances 1 to 6), and changes only the queue |
| ContourGeneration.ContourGenerator.Execute | pxu/src/pxu.rs:362-681 | `execute` computes `Exec` |
| ContourGeneration.ContourGenerator.Goto | pxu/src/pxu.rs:412-441 | a PGoto command moves the p interpolator when there is one |
| ContourGeneration.ContourGenerator.TakeECut | pxu/src/pxu.rs:549-576 | the ComputeCutE commands take the path and branch point from the energy interpolator when there is one |
| ContourGeneration.ContourGenerator.ExecutePushCut | pxu/src/pxu.rs:582-609 | the PushCut arm appends the pushed cuts, or nothing without a path |
| ContourGeneration.ContourGenerator.ExecuteSplitCut | pxu/src/pxu.rs:611-679 | the SplitCut arm computes `SplitCuts` |
| ContourGeneration.FindSplit | pxu/src/pxu.rs:621-666 | the window loop of SplitCut returns the first window that crosses the cut |
| ContourGeneration.ContourGenerator.ExecuteGrid | pxu/src/pxu.rs:371-466 | the grid line arms of `execute` compute `ExecGrid`, which by `GridFrame` changes only the grids |
| ContourGeneration.ContourGenerator.ExecuteCutPath | pxu/src/pxu.rs:467-548 | the cut path arms of `execute` compute `ExecCutPath`, which by `CutPathFrame` changes only the runtime cut context |
| ContourGeneration.ContourGenerator.ExecuteOther | pxu/src/pxu.rs:404-441 | the interpolator arms compute `ExecOther`, which by `OtherFrame` changes only the runtime context |
| ContourGeneration.ContourGenerator.BuildCutX | pxu/src/pxu.rs:492-528 | the ComputeCutX arm computes `CutX`: the path is cleared first and set only when there is a branch point |
| ContourGeneration.ContourGenerator.BuildCutXFull | pxu/src/pxu.rs:529-548 | the ComputeCutXFull arm computes `CutXFull`: the closed scallion or kidney with its real branch point |
| ContourGeneration.GridFrame | pxu/src/pxu.rs:371-466 | the grid line arms change the grids and nothing else |
| ContourGeneration.CutPathFrame | pxu/src/pxu.rs:467-548 | the cut path arms change the runtime context and nothing else |
| ContourGeneration.CutListFrame | pxu/src/pxu.rs:582-679 | PushCut and SplitCut change the list of cuts and nothing else |
| ContourGeneration.OtherFrame | pxu/src/pxu.rs:404-441 | the interpolator and energy cut arms change the runtime context and nothing else |
| ContourGeneration.RangeCommandsVisits | pxu/src/pxu.rs:750-760 | the commands the range loop appends are those of the ranges in `Visits` order |
| ContourGeneration.GeneratedVisits | pxu/src/pxu.rs:740-781 | the whole queue is the u grid, then the cuts, the x grids and the p grids of the ranges, each in `Visits(p0, 6)` order, the corrected loops |
| ContourGeneration.ContourGenerator.AddRangePair | pxu/src/pxu.rs:750-760 | one pass of the range loop appends the lower range's commands (if within bounds) and then the upper's |
| ContourGeneration.ContourGenerator.GenerateXGridPair | pxu/src/pxu.rs:762-771 | one pass of the x-grid loop appends the lower range's x grid (if within bounds) and then the upper's |
| LegacyPxu.ConditionRelations | src/pxu.rs:576-587 | LogBranchGT(b) is the negation of LogBranchLE(b), LogBranch(b) holds iff LogBranchLE(b) does and LogBranchLE(b-1) does not; opposite Im signs are complementary and sign 0 never holds |
| LegacyPxu.NewCut | src/pxu.rs:658-666 | a new cut has no conditions and is visible everywhere |
| LegacyPxu.Restrict | src/pxu.rs:668-705 | each builder appends its condition and changes nothing else |
| LegacyPxu.RestrictVisibility | src/pxu.rs:668-745 | a restricted cut is visible iff the cut is and the new condition holds |
| LegacyPxu.Intersection | src/pxu.rs:717-741 | `intersection` returns the first hit point over the paths, None iff no path is crossed |
| LegacyPxu.VisibleOf | src/pxu.rs:621-628 | `visible` yields exactly the visible cuts of the plane |
| LegacyPxu.CrossedOf | src/pxu.rs:630-646 | `crossed` yields exactly the visible cuts of the plane that the move intersects |
| LegacyPxu.CrossedAreVisible | src/pxu.rs:630-646 | every crossed cut is visible |
| LegacyPxu.PopulatedFresh | src/pxu.rs:602-619 | after `populate` a valid cache holds exactly the cuts of the point's constants |
| LegacyPxu.Cuts.constructor | src/pxu.rs:595-600 | the cache starts empty, without constants |
| LegacyPxu.Cuts.Populate | src/pxu.rs:602-619 | `populate` clears on changed constants, regenerates only when empty, and records the constants |
| LegacyPxu.Cuts.Visible | src/pxu.rs:621-628 | `visible` populates and returns the visible cuts |
| LegacyPxu.Cuts.Crossed | src/pxu.rs:630-646 | `crossed` populates and returns the crossed cuts |
| LegacyPxu.FilterVisible | src/pxu.rs:621-628 | the filter loop of `visible` keeps exactly the visible cuts of the plane, in order |
| LegacyPxu.FilterCrossed | src/pxu.rs:630-646 | the filter loop of `crossed` keeps exactly the visible cuts of the plane that the move intersects, in order |
| LegacyPxu.GridCacheSound | src/pxu.rs:179-193 | after `get` the point's log branch has its lines; entries survive while the constants stay, and changed constants leave only the new entry |
| LegacyPxu.Grid.constructor | src/pxu.rs:173-177 | the grid cache starts empty, without constants |
| LegacyPxu.Grid.Get | src/pxu.rs:179-193 | `get` updates the cache and returns the lines of the point's log branch |
| LegacyPxu.Initial | src/pxu.rs:3174-3196 | `PxuPoint::new`: log_branch the saturated floor of Re p, log_branch_sum 1 for odd and 0 for even, e_branch 1 |
| LegacyPxu.CrossCutInverse | src/pxu.rs:3339-3356 | LogX(c, b) is undone by LogX(c, -b), E by E, and U and DebugPath change nothing; parity of log_branch + log_branch_sum is kept |
| LegacyPxu.CrossAllKeepsEven | src/pxu.rs:3339-3356 | crossing any cuts keeps log_branch + log_branch_sum even |
| LegacyPxu.TrySetSpec | src/pxu.rs:3223-3266 | corrected `try_set`: accepts iff p is present and the candidate's jumps are not too large; the stored point has that p, the new sheet, coordinates consistent with it, |Δp|² <= 4 and |Re Δp| <= 1/2 |
| LegacyPxu.AsWrittenStoresStaleU | src/pxu.rs:3223-3266 | as written `try_set` evaluates u on the old sheet and can store a point whose u does not belong to its new sheet |
| LegacyPxu.FirstAcceptedFound | src/pxu.rs:3357-3374 | the guesses p, p-0.01, p+0.01 are tried in order; success iff one is accepted |
| LegacyPxu.UpdateKeepsEven | src/pxu.rs:3337-3376 | an accepted update lands on the crossed sheet and keeps the parity invariant |
| LegacyPxu.PxuPoint.New | src/pxu.rs:3174-3196 | the new point is `Initial(p, consts)` |
| LegacyPxu.PxuPoint.GetValue | src/pxu.rs:3328-3335 | `get` returns the coordinate of the plane |
| LegacyPxu.PxuPoint.TrySet | src/pxu.rs:3223-3266 | `try_set` changes the point as `TrySetSpec` says, or not at all |
| LegacyPxu.PxuPoint.Update | src/pxu.rs:3337-3376 | `update` moves to the first accepted guess or leaves the point unchanged |
| PathRegistry.Listing | make-paths/src/path_provider.rs:55-60 | the header line followed by one quoted line per unused path |
| PathRegistry.StatisticsAllUsed | make-paths/src/path_provider.rs:53-62 | the report is "All paths were used." iff no path is unused |
| PathRegistry.Unseen | make-paths/src/path_provider.rs:43-49 | exactly the names of the order that were not seen |
| PathRegistry.UnseenDistinct | make-paths/src/path_provider.rs:43-49 | distinct keys give distinct unused names |
| PathRegistry.PathProvider.constructor | make-paths/src/path_provider.rs:10-15 | the registry starts empty |
| PathRegistry.PathProvider.Add | make-paths/src/path_provider.rs:18-21 | `add` stores path and start under the name, overwriting, and keeps the seen set |
| PathRegistry.PathProvider.GetPath | make-paths/src/path_provider.rs:23-30 | `get_path` marks the name seen and returns the path, or the "Could not find path for" error |
| PathRegistry.PathProvider.GetStart | make-paths/src/path_provider.rs:32-39 | `get_start` marks the name seen and returns the start, or the "Could not find start for" error |
| PathRegistry.PathProvider.GetStatistics | make-paths/src/path_provider.rs:41-63 | lists exactly the path keys never seen, each once, and says all were used iff every key was seen |
| PathRegistry.FilterUnseen | make-paths/src/path_provider.rs:43-49 | the key filter computes `Unseen` |
| PathRegistry.ReportLines | make-paths/src/path_provider.rs:51-60 | the line loop computes the report lines |
| FigWriter.ExpandRange | latex-figures/src/fig_writer.rs:49-60 | expanding keeps the centre and makes the range 3.2 times as wide |
| FigWriter.Expand | latex-figures/src/fig_writer.rs:49-60 | `expand` keeps the centre and scales width and height by 3.2 |
| FigWriter.ExpandContains | latex-figures/src/fig_writer.rs:38-60 | a point inside the bounds is inside the expanded bounds |
| FigWriter.CrossesOutside | latex-figures/src/fig_writer.rs:38-47 | a crossing segment has both ends outside the bounds, and `crosses` is symmetric |
| FigWriter.KeptSubsequence | latex-figures/src/fig_writer.rs:230-266 | the kept points are an in-order subsequence of the input |
| FigWriter.CroppedSubsequence | latex-figures/src/fig_writer.rs:230-266 | `crop` returns an in-order subsequence no longer than the input, and nothing for fewer than two points |
| FigWriter.KeepsInside | latex-figures/src/fig_writer.rs:240-264 | a point inside the expanded bounds is kept |
| FigWriter.Dedup | latex-figures/src/fig_writer.rs:225 | `dedup` keeps the elements and the last one, and leaves no two equal neighbours |
| FigWriter.DedupFixed | latex-figures/src/fig_writer.rs:225 | a sequence without equal neighbours is unchanged |
| FigWriter.DedupIdempotent | latex-figures/src/fig_writer.rs:225 | `dedup` is idempotent |
| FigWriter.FormatContour | latex-figures/src/fig_writer.rs:221-228 | the formatted contour has no equal neighbours, is no longer, and is empty iff the contour is |
| FigWriter.DedupKeepsRuns | latex-figures/src/fig_writer.rs:226 | `dedup` removes only consecutive repeats: the result is a subsequence with exactly one element per run of equal neighbours (1 + the number of changes) |
| FigWriter.FormatContourRuns | latex-figures/src/fig_writer.rs:221-228 | the formatted contour is a subsequence of the formatted vertices, one per run of equal neighbouring coordinates, ending with the last vertex's coordinate, so a closed contour keeps its closing vertex |
| FigWriter.PlotText | latex-figures/src/fig_writer.rs:272-287 | a plot writes lines iff it has coordinates |
| FigWriter.FlattenAppend | latex-figures/src/fig_writer.rs:435-457 | the points of the runs are their concatenation |
| FigWriter.Blocks | latex-figures/src/fig_writer.rs:435-457 | the segments fall into maximal blocks of consecutive segments with the same `is_same` flag: neighbouring blocks differ in flag |
| FigWriter.SplitRuns | latex-figures/src/fig_writer.rs:435-457 | the straight and dotted runs are the same-branch and other blocks of `PathRuns`, in order: every block with points, and the last block even when empty (dotted when there are no segments); together they hold exactly the points of their side |
| FigWriter.SplitStep | latex-figures/src/fig_writer.rs:436-452 | a change of flag closes the open run on its side when it has points; otherwise the segment's points extend the open run |
| FigWriter.SplitStateStep | latex-figures/src/fig_writer.rs:436-452 | one iteration keeps the loop state equal to the closed non-empty blocks and the open block of the segments seen |
| FigWriter.PathRunsCoverPoints | latex-figures/src/fig_writer.rs:435-457 | the runs of each side, concatenated, are exactly the points of the segments on that side, in path order |
| FigWriter.StraightRunsSplitByDotted | latex-figures/src/fig_writer.rs:435-457 | segments same, other, same (the first two with points) give the straight runs [a] and [c] and the dotted run [b], never one straight run across the dotted stretch |
| FigWriter.PlotsCount | latex-figures/src/fig_writer.rs:272-287 | the counter grows by at most one per contour |
| FigWriter.WindowsPairs | latex-figures/src/fig_writer.rs:498-503 | `tuple_windows` gives one pair per consecutive vertices, in order, and none for fewer than two vertices |
| FigWriter.LinesEnds | latex-figures/src/fig_writer.rs:498-503 | one line per pair, in order, storing the pair's two ends |
| FigWriter.LinesAppend | latex-figures/src/fig_writer.rs:498-503 | a new line stores the length so far plus its own |
| FigWriter.LinesOrdered | latex-figures/src/fig_writer.rs:498-503 | the stored cumulative lengths are non-decreasing |
| FigWriter.BeyondEnd | latex-figures/src/fig_writer.rs:505-511 | every stored length is below pos iff the total length is |
| FigWriter.PartitionPoint | latex-figures/src/fig_writer.rs:507 | `partition_point` is the first line whose cumulative length reaches pos |
| FigWriter.ArrowAt | latex-figures/src/fig_writer.rs:505-531 | an arrow is placed on that line, and none iff every line ends before pos |
| FigWriter.ArrowMarks | latex-figures/src/fig_writer.rs:489-534 | `add_path_arrows` builds ordered lines and one arrow (or skip) per mark |
| FigWriter.ArrowsAlong | latex-figures/src/fig_writer.rs:505-531 | the mark loop places each mark |
| FigWriter.ArrowSkipped | latex-figures/src/fig_writer.rs:508-510 | a mark is skipped iff it lies beyond the total length |
| FigWriter.TrackLines | latex-figures/src/fig_writer.rs:498-503 | the segment loop builds the lines of all windows |
| FigWriter.AddTrackLines | latex-figures/src/fig_writer.rs:499-502 | one segment's windows are appended |
| FigWriter.FigureWriter.constructor | latex-figures/src/fig_writer.rs:127-170 | a new writer has count 0, no y shift and no output |
| FigWriter.FigureWriter.Crop | latex-figures/src/fig_writer.rs:230-266 | the method computes `Cropped` |
| FigWriter.FigureWriter.AddPlotAll | latex-figures/src/fig_writer.rs:272-287 | `add_plot_all` writes the plot and counts one iff there are coordinates |
| FigWriter.FigureWriter.AddPlot | latex-figures/src/fig_writer.rs:268-270 | `add_plot` is `add_plot_all` of the cropped contour |
| FigWriter.FigureWriter.AddPlots | latex-figures/src/fig_writer.rs:458-468 | one plot per run, in order |
| FigWriter.FigureWriter.AddPath | latex-figures/src/fig_writer.rs:423-471 | `add_path` splits the path into the runs of `PathRuns` and plots the dotted runs, then the straight runs |
| FigWriter.PlotCountedIffNonEmpty | latex-figures/src/fig_writer.rs:272-287 | a plot is written iff the contour is non-empty |
| PlotModel.FilterCuts | plot/src/plot.rs:265-269 | exactly the cuts that pass the filter, no more of them |
| PlotModel.FilterCutsCases | plot/src/plot.rs:265-269 | All keeps every cut, None none, Only(v) those whose type is in v |
| PlotModel.FilterAllKeeps | plot/src/plot.rs:265-269 | the All filter returns the cuts unchanged, in order |
| PlotModel.FilterNoneEmpty | plot/src/plot.rs:265-269 | the None filter returns no cut |
| PlotModel.CutDrawing | plot/src/plot.rs:285-336 | normal theme: ULongNegative never drawn, E and short cuts always, log and long positive cuts iff not hidden; black theme draws all black |
| PlotModel.PeriodShifts | plot/src/plot.rs:338-343 | 11 shifts n 2k/h for n = -5..5 for a periodic cut, the single 0 otherwise |
| PlotModel.PeriodShiftsSymmetric | plot/src/plot.rs:338-343 | the shifts are symmetric about 0 and include 0 |
| PlotModel.CutsShift | plot/src/plot.rs:251-259 | no shift outside the u plane or on log branch 0 |
| PlotModel.CutsShiftStep | plot/src/plot.rs:251-259 | one more log branch adds one period 2k/h |
| PlotModel.PointFill | plot/src/plot.rs:450-458 | blue for the active point, black for equal sheets, gray iff not the active one and not on the same sheet |
| PlotModel.PlotState.constructor | plot/src/plot.rs:30-49 | the default state: point 0, no interaction, no full screen, all cuts, normal theme |
| PlotModel.PlotState.Reset | plot/src/plot.rs:52-55 | `reset` clears the interaction and nothing else |
| PlotModel.PlotState.ToggleFullscreen | plot/src/plot.rs:57-69 | the component from nothing, nothing from any component; nothing else changes |
| PlotModel.PlotState.CloseFullscreen | plot/src/plot.rs:71-73 | nothing is full screen and nothing else changes |
| PlotModel.ToggleTwice | plot/src/plot.rs:57-69 | toggling twice from nothing gives nothing; each toggle changes whether something is full screen |
| PresentationDescription.Ease | presentation/src/presentation_description.rs:10-12 | ease(0) = 0 and ease(1) = 1 |
| PresentationDescription.EaseBounded | presentation/src/presentation_description.rs:10-12 | ease maps [0,1] into [0,1] |
| PresentationDescription.EaseSymmetric | presentation/src/presentation_description.rs:10-12 | ease(1-s) = 1 - ease(s) |
| PresentationDescription.EaseMonotone | presentation/src/presentation_description.rs:10-12 | ease is non-decreasing on [0,1] |
| PresentationDescription.LerpReal | presentation/src/presentation_description.rs:18-29 | lerp meets a at 0 and b at 1 and stays between them on [0,1] |
| PresentationDescription.LerpC | presentation/src/presentation_description.rs:31-35 | complex lerp meets a at 0 and b at 1 |
| PresentationDescription.LerpCParts | presentation/src/presentation_description.rs:31-35 | complex lerp is the scalar lerp of the parts |
| PresentationDescription.LerpPair | presentation/src/presentation_description.rs:37-41 | point lerp works coordinate by coordinate |
| PresentationDescription.LerpRect | presentation/src/presentation_description.rs:43-47 | rectangle lerp works corner by corner |
| PresentationDescription.LerpRectEnds | presentation/src/presentation_description.rs:37-47 | array lerps meet their end points |
| PresentationDescription.RemTwo | presentation/src/presentation_description.rs:57 | `rem_euclid(2)` lies in [0,2) and differs from x by an even integer |
| PresentationDescription.RemTwoUnique | presentation/src/presentation_description.rs:57 | that remainder is unique |
| PresentationDescription.Fold | presentation/src/presentation_description.rs:57-58 | the folded parameter lies in [0,1] |
| PresentationDescription.FoldIdentity | presentation/src/presentation_description.rs:57-58 | folding is the identity on [0,1] |
| PresentationDescription.FoldPeriodic | presentation/src/presentation_description.rs:57-58 | folding has period 2 |
| PresentationDescription.FoldEven | presentation/src/presentation_description.rs:57-58 | folding is even: the triangle wave |
| PresentationDescription.Get | presentation/src/presentation_description.rs:53-63 | a constant gives its value for every t; a transition gives a value iff its duration is non-zero |
| PresentationDescription.TransitionEnds | presentation/src/presentation_description.rs:56-61 | a transition starts at its start value, reaches its end after one duration and is back after two |
| PresentationDescription.TransitionPeriodic | presentation/src/presentation_description.rs:56-61 | a transition has period twice its duration |
| PresentationDescription.TransitionBetween | presentation/src/presentation_description.rs:56-61 | a scalar transition stays between its two end values |
| PresentationDescription.ParseComponent | presentation/src/presentation_description.rs:72-82 | `from_str` accepts exactly "P" and "Theta" and else fails with "Could not parse component" |
| PresentationDescription.PrintComponent | presentation/src/presentation_description.rs:84-95 | `Display` prints a non-empty name |
| PresentationDescription.ComponentRoundTrip | presentation/src/presentation_description.rs:72-95 | parse of print is the identity, and every accepted text is the print of what it parses to |
| PresentationBuild.RebuildFlags | presentation/src/build.rs:42-87 | rebuild_pdf implies rebuild; rebuild_pdf iff forced, no cache, PDF mismatch or a missing image; rebuild iff that or a TOML mismatch |
| PresentationBuild.FirstWithHash | presentation/src/build.rs:112-128 | the representative is a frame image with the hash, None iff no image has it |
| PresentationBuild.FirstWithHashIsFirst | presentation/src/build.rs:123-127 | the representative is at or before every image with its hash |
| PresentationBuild.FirstWithHashStable | presentation/src/build.rs:123-125 | later frames never change a representative already found |
| PresentationBuild.DedupImages | presentation/src/build.rs:112-128 | every frame image maps to the first image, in frame order, with the same hash |
| PresentationBuild.DedupStep | presentation/src/build.rs:117-128 | one frame keeps the loop invariant |
| PresentationBuild.DedupIdempotent | presentation/src/build.rs:123-127 | representatives map to themselves and keep the hash, so the map is idempotent |
| PresentationBuild.DedupSameHash | presentation/src/build.rs:112-128 | two images share a representative iff they have the same hash |
| PresentationBuild.RewriteFrames | presentation/src/build.rs:139-141 | every frame's image is replaced by its representative |
| PresentationBuild.CheckPresentation | presentation/src/build.rs:39-159 | up to date (and untouched) iff not forced, cache equal to both hashes and no image missing; otherwise frames point at representatives and the cache holds the PDF hash and the new TOML hash |
| PresentationApp.IsAnimated | presentation/src/app.rs:41-60 | a frame is animated iff some plot, relativistic plot or the dispersion plot is |
| PresentationApp.Applied | presentation/src/app.rs:90-107 | starting a frame keeps a plot's component and width factor |
| PresentationApp.AppliedProperties | presentation/src/app.rs:90-107 | only constant origins and heights change a plot; applying twice is applying once |
| PresentationApp.Lookup | presentation/src/app.rs:90-97 | the description of a plane, iff the frame has one |
| PresentationApp.PlotData.constructor | presentation/src/app.rs:142-175 | default constants h = 2, k = 5 and the default plots, u height (4k+1)/h |
| PresentationApp.Advance | presentation/src/app.rs:230-234 | corrected advance: one further only before the second-last index, and always within the frames |
| PresentationApp.AdvanceAsWritten | presentation/src/app.rs:230-234 | as written the bound `len - 2` underflows exactly when advancing with fewer than two frames |
| PresentationApp.AsWrittenSingleFramePanics | presentation/src/app.rs:230-234 | with one frame the written bound fails while the corrected advance stays at 0 |
| PresentationApp.AdvanceAgrees | presentation/src/app.rs:230-234 | wherever the written bound is defined, the two agree |
| PresentationApp.StepBack | presentation/src/app.rs:235-246 | going back moves while 0 < index < len-1 and stops at the first frame without a duration |
| PresentationApp.Stamped | presentation/src/app.rs:218-220 | a frame is stamped with now only when its start time is still 0 |
| PresentationApp.ElapsedCases | presentation/src/app.rs:222-228 | a frame without duration never runs out |
| PresentationApp.TargetUnique | presentation/src/app.rs:216-246 | the navigation target is unique |
| PresentationApp.TargetIndex | presentation/src/app.rs:216-246 | the computed index is the navigation target and within the frames |
| PresentationApp.Position | presentation/src/app.rs:265-269 | `position` returns the first `Pxu` with the current constants, None iff there is none |
| PresentationApp.App.constructor | presentation/src/app.rs:122-140 | a new app has no frames, index 0, no forced last page and no `Pxu` |
| PresentationApp.App.StartFrame | presentation/src/app.rs:90-116 | `Frame::start` applies the plot descriptions, sets constants and cut filter only when given, stamps the start time, and changes nothing else |
| PresentationApp.App.Load | presentation/src/app.rs:476-490 | loading resets an out-of-range index to 0 and starts that frame at time 0 |
| PresentationApp.App.Navigate | presentation/src/app.rs:216-260 | the index becomes the navigation target; Enter toggles the forced last page; the frame left is stamped with now if it had not started; a changed index starts its frame at now and applies its plot descriptions, constants and cut filter, while an unchanged index leaves the plots, constants and filter alone; the shown frame is the last one iff forced |
| PresentationApp.App.StampStart | presentation/src/app.rs:218-220 | only the current frame is stamped |
| PresentationApp.App.SelectPxu | presentation/src/app.rs:265-284 | the first `Pxu` with the current constants is reused, else a new one is appended and the active point reset to 0 |
| PresentationApp.App.ClampActivePoint | presentation/src/app.rs:310-312 | an out-of-range active point is reset to 0 |

## Left out

- The transcendental maps, their derivatives, the energy, Newton's root finder, the interpolators and the short u crossing maps are parameters (`Kin`, `Maps`, `Interpolators`, `Scripts`), because they are floating-point complex analysis whose code is not part of this model. The x arc oracles `xpArc` and `xmArc` are assumed to return a non-empty path, so the `unwrap` of its first or last vertex at pxu/src/pxu.rs:519-522 never panics.
- Floating point in general: reals replace f64 and f32; NaN, infinities and negative zero are not modelled. The jump thresholds and the segment test are exact over the reals.
- StateModel.UpdatePoint: the source loop has no bound; the model takes a `fuel` parameter and reports failure when it runs out. It does not model a loop that never reaches the final value.
- StateModel.State.New: requires m >= 1, because `m - 1` on a usize at pxu/src/state.rs:21 panics for m = 0. The start values are parameters: p0 (where the `PInterpolatorMut` of pxu/src/state.rs:18-22 lands) and u0 (`us + 3` of pxu/src/state.rs:24-27). The "Could not find u" warning is not modelled.
- StateModel.UpdatePointsSpec, StateModel.State.UpdatePoints, StateModel.State.Update, PlotModel.PointFill: require `active < |points|`; the source indexes the points with the active point (pxu/src/state.rs:107) and panics on an index out of range.
- PresentationDescription.LerpReal: the rounding of s to f32 in the f32 impl is not modelled.
- PresentationDescription.Get: a zero duration makes the source divide by zero and produce NaN; the model returns None instead.
- PlotModel.CutsShift: the i32 product log_branch_p * k is not checked for overflow.
- FigWriter.FormatContour: the `{:.5}` formatting of coordinates is the parameter `fmt`, so coordinates that format alike are compared through it, not through decimal rounding.
- FigWriter.ArrowAt: the arrow position t divides by the line's length; a zero-length line (which gives NaN in the source) yields no position.
- The writer's preamble, axis, caption, grid-line and cut drawing, and all file output of latex-figures/src/fig_writer.rs are left out; the output is modelled as a sequence of lines.
- PresentationBuild.CheckPresentation: the md5 of files, the image files' presence, TOML reading and writing and the `pdftoppm` run are parameters. The failure of `pdftoppm` and the I/O errors are not modelled. The "Duplicate image" log loop has no effect and is left out.
- PresentationApp.IsAnimated: the dispersion-relation plot description is reduced to whether it is animated, and each plot description's own `is_animated` is a parameter.
- PresentationApp.PlotData.constructor: the x plot height 8 s(h, k) is a parameter, because s is not part of this model.
- PresentationApp.App.SelectPxu: the new `Pxu` gets its state as a parameter; the two initial moves of its point (to p = 0.1 and 0.15) are not modelled.
- PresentationApp.App.Load: requires a non-empty presentation; the source indexes the first frame and panics on an empty one.
- PathModel.EditablePath.Get: requires that no state has more points than the first; the source panics on such input.
- The Backspace, digit and Space keys of the presentation viewer, and all drawing, images and UI, are left out. They rebuild or unlock the state and do not touch the navigation.
- The iteration order of Rust's `HashMap` and `HashSet` is a parameter (`order`) wherever it decides an output order.
- `SavedState::decode`, `PathProvider::load`, the thread pools and the progress bars are left out: they are serialization, concurrency and I/O.
- The cut-building scripts of `generate_cuts` and `generate_p_grid` are the parameter `Scripts`, except for the first log cut (`GenerateXpLogCut`). Their hundreds of literal commands are data, not logic.
- `Cut::get` and the cut lists of src/pxu.rs (`x_cuts_p` and the others) and `GridLines::new` are parameters (`cutsOf`, `newLines`).
- ContourGeneration.ContourGenerator.AddForRanges: follows the corrected range loop of the first finding (distances 1 to 6); the source's `for i in 1..max` at pxu/src/pxu.rs:750-760 stops at distance 5, which `AsWrittenMissesOppositeEnd` exhibits.
- ContourGeneration.ContourGenerator.GenerateXGrids: the same corrected bound for the x-grid loop; pxu/src/pxu.rs:761-771 stops at distance 5.
- ContourGeneration.ContourGenerator.GenerateCommands: queues the ranges of the corrected loops (distances 1 to 6), not the 1..5 of pxu/src/pxu.rs:750-781.
- ContourGeneration.GeneratedVisits: is stated for `Visits(p0, 6)`, the corrected loops; the source as written gives `Visits(p0, 5)`.
- ContourGeneration.ContourGenerator.Update: the queue it builds is that of the corrected range loops (distances 1 to 6).
- ContourGeneration.ContourGenerator.Prepare: the queue it builds is that of the corrected range loops (distances 1 to 6).
- LegacyPxu.PxuPoint.TrySet: follows the corrected `TrySetSpec` of the second finding and stores u evaluated on the new sheet; src/pxu.rs:3231 and 3235 evaluate it with `self.sheet_data`, the old sheet (`AsWrittenStoresStaleU`).
- LegacyPxu.PxuPoint.Update: accepts guesses through the corrected `TrySetSpec`, so it inherits the new-sheet u of the second finding.
- PresentationApp.TargetIndex: uses the corrected bound of the third finding; with one frame it stays at 0 where presentation/src/app.rs:231 underflows and panics.
- PresentationApp.App.Navigate: navigates with the corrected `TargetIndex`, so a one-frame presentation stays at frame 0 instead of panicking.

## Findings

| source | as written | input that shows it | evidently intended | confidence | as-written member | corrected member |
|---|---|---|---|---|---|---|
| pxu/src/pxu.rs:750-760 | `for i in 1..max` with max = P_RANGE_MAX - P_RANGE_MIN = 6 stops at distance 5 | a point with p_range = -3 never generates range 3, and p_range = 3 never generates -3 | every range of [-3, 3] is generated (`1..=max`) | not executed | ContourGeneration.AsWrittenMissesOppositeEnd | ContourGeneration.VisitsCoverRange |
| src/pxu.rs:3223-3266 | `try_set` evaluates the new u with `self.sheet_data`, the sheet before the move | crossing a LogX cut with the u map depending on the sheet: the stored u belongs to the old sheet while the stored sheet is the new one | u is evaluated on the new `sheet_data` argument | not executed | LegacyPxu.AsWrittenStoresStaleU | LegacyPxu.TrySetSpec |
| presentation/src/app.rs:230-234 | `self.frame_index < self.frames.len() - 2` on a usize | a presentation with one frame and a right-arrow press (or an expired duration): `1 - 2` underflows and panics in debug builds | the same bound without the underflow (`frame_index + 2 < len`) | not executed | PresentationApp.AsWrittenSingleFramePanics | PresentationApp.AdvanceAgrees |
