/**
 * The contour generator of `pxu/src/pxu.rs`: a queue of commands, filled
 * when the coupling constants change and run one command per `update`,
 * that builds the grid lines and the cuts of every p range through a small
 * runtime context (current cut path and branch point, interpolators) and a
 * build-time context (the cut being described).
 */
module ContourGeneration {
  import opened Complex
  import opened Wrappers
  import opened Kinematics
  import CutModel
  import opened ContourCuts

  const P_RANGE_MIN: int := -3
  const P_RANGE_MAX: int := 3
  /** The coordinate used as "infinitely far" for straight grid lines and cuts. */
  const INFINITY: real := 100.0

  datatype CutDirection = Positive | Negative

  datatype XCut = Scallion | Kidney

  datatype Command =
    | AddGridLineU(y: real)
    | AddGridLineXReal(x: real)
    | AddGridLineX(m: real)
    | AddGridLineP
    | ComputeBranchPoint(pRange: int, bpType: BranchPointType)
    | ClearCut
    | ComputeCutX(direction: CutDirection)
    | ComputeCutXFull(xcut: XCut)
    | ComputeCutP(reverse: bool)
    | ComputeCutEP
    | ComputeCutEXp
    | ComputeCutEXm
    | ComputeCutEU
    | SetCutPath(path: seq<C>, branchPoint: Option<C>)
    | PushCut(pRange: int, component: Component, cutType: CutModel.CutType, visibility: seq<Condition>)
    | SplitCut(pRange: int, component: Component)
    | EStart(pRange: int)
    | PStartXp(p: real)
    | PGotoXp(p: real, m: real)
    | PGotoXm(p: real, m: real)
    | PGotoP(p: real)
    | PGotoM(m: real)
    | PGotoIm(im: real)
    | PGotoRe(re: real)

  datatype GridLineComponent = RealLine | XpLine(m: real) | XmLine(m: real)

  datatype GridLine = GridLine(path: seq<C>, component: GridLineComponent)

  /** A p interpolator: where it started and the moves made since, in order. */
  datatype PInterpolator = PInterpolator(start: real, consts: Consts, moves: seq<Command>)

  /** An energy-cut interpolator for one p range. */
  datatype EInterpolator = EInterpolator(pRange: int, consts: Consts)

  /** Where a p interpolator currently is. */
  datatype InterpolationPoint = AtXp(p: real, m: real) | AtXm(p: real, m: real) | AtRe(x: real) | AtC(z: C)

  type PosReal = r: real | r > 0.0 witness 1.0

  /** A path with at least one vertex. */
  type Polyline = s: seq<C> | |s| > 0 witness [C(0.0, 0.0)]

  /**
   * The numerical side of the generator, given rather than computed: the
   * full x+ contour of a bound-state number, the x arcs between two values
   * of p, the contour and current point of a p interpolator, the energy
   * cuts of an energy interpolator per plane (branch point and path, each
   * possibly missing), the root finder for branch points, |arg x| / pi,
   * and the constant s of the coupling constants.
   */
  datatype Interpolators = Interpolators(
    xpFull: (real, Consts) -> seq<C>,
    xpArc: (real, real, real, Consts) -> Polyline,
    xmArc: (real, real, real, Consts) -> Polyline,
    pContour: PInterpolator -> seq<C>,
    pPoint: PInterpolator -> InterpolationPoint,
    eCut: (EInterpolator, Component) -> (Option<C>, Option<seq<C>>),
    findBranchPoint: (real, Consts, BranchPointType) -> Option<C>,
    argOverPi: C -> Phase,
    s: Consts -> PosReal)

  /** The command lists of `generate_cuts` and `generate_p_grid` for one p range. */
  datatype Scripts = Scripts(cuts: (int, Consts) -> seq<Command>, pGrid: (int, Consts) -> seq<Command>)

  /** The path and branch point of the cut being computed. */
  datatype RuntimeCutData = RuntimeCutData(branchPoint: Option<C>, path: Option<seq<C>>)

  /** What the commands work with while they run: the interpolators, the last branch point found, the cut path. */
  datatype RuntimeContext = RuntimeContext(
    pInt: Option<PInterpolator>,
    eInt: Option<EInterpolator>,
    branchPointData: Option<BranchPointData>,
    cutData: RuntimeCutData)

  /** The description of the cut being queued: its plane, its type and its visibility conditions. */
  datatype BuildTimeCutData = BuildTimeCutData(
    component: Option<Component>,
    cutType: Option<CutModel.CutType>,
    visibility: seq<Condition>)

  const EMPTY_RUNTIME: RuntimeContext := RuntimeContext(None, None, None, RuntimeCutData(None, None))
  const EMPTY_BUILD: BuildTimeCutData := BuildTimeCutData(None, None, [])

  /** The whole state of a generator, as a value. */
  datatype Generator = Generator(
    cuts: seq<Cut>,
    commands: seq<Command>,
    consts: Option<Consts>,
    gridP: seq<GridLine>,
    gridX: seq<GridLine>,
    gridU: seq<GridLine>,
    rctx: RuntimeContext,
    bctx: BuildTimeCutData,
    numCommands: nat)

  /** The generator with a new cut path and branch point. */
  function WithCut(g: Generator, path: Option<seq<C>>, bp: Option<C>): Generator {
    g.(rctx := g.rctx.(cutData := RuntimeCutData(bp, path)))
  }

  function ConjPath(path: seq<C>): seq<C> {
    seq(|path|, i requires 0 <= i < |path| => Conj(path[i]))
  }

  function Reverse(path: seq<C>): seq<C> {
    seq(|path|, i requires 0 <= i < |path| => path[|path| - 1 - i])
  }

  /** The vertical offset of the u cuts of a p range, 0 in the other planes. */
  function UShift(comp: Component, pRange: int, consts: Consts): C {
    if comp == U then C(0.0, (pRange * consts.k) as real / consts.h) else C(0.0, 0.0)
  }

  /** The two cuts `PushCut` appends: the conjugate first, both shifted. */
  function PushedCuts(pRange: int, comp: Component, typ: CutModel.CutType, vis: seq<Condition>,
                      path: seq<C>, bp: Option<C>, consts: Consts): seq<Cut> {
    var cut := Cut(comp, [path], bp, typ, pRange, vis);
    var shift := UShift(comp, pRange, consts);
    [Translated(CutConj(cut), shift), Translated(cut, shift)]
  }

  /** The cut path as `SplitCut` walks it: shifted in the x+ plane, conjugated and shifted otherwise. */
  function MovedPath(path: seq<C>, comp: Component, shift: C): seq<C> {
    seq(|path|, i requires 0 <= i < |path| => if comp == Xp then Add(path[i], shift) else Add(Conj(path[i]), shift))
  }

  /** The first window of pts, from w on, that meets the cut. */
  function FirstSplit(cut: Cut, pts: seq<C>, w: nat): (r: Option<PathHit>)
    ensures r.Some? ==> r.value.path < |cut.paths| && r.value.hit.index + 1 < |cut.paths[r.value.path]|
    decreases |pts| - w
  {
    if w + 1 >= |pts| then None
    else
      var h := FirstPathHit(cut.paths, pts[w], pts[w + 1], 0);
      FirstPathHitIsFirst(cut.paths, pts[w], pts[w + 1], 0);
      if h.Some? then
        CutModel.FirstHitIsFirst(cut.paths[h.value.path], pts[w], pts[w + 1], 0);
        h
      else FirstSplit(cut, pts, w + 1)
  }

  /** The conditions of the second piece: the u branch of the moving plane is flipped. */
  function FlipVisibility(vs: seq<Condition>, comp: Component): seq<Condition> {
    seq(|vs|, i requires 0 <= i < |vs| =>
      match vs[i]
      case UpBranch(n) => if comp == Xp then UpBranch(-n) else UpBranch(n)
      case UmBranch(n) => if comp == Xm then UmBranch(-n) else UmBranch(n)
      case _ => vs[i])
  }

  /** The cut cut at the hit: the first piece ends at the hit point, where the second piece starts. */
  function SplitPieces(cut: Cut, h: PathHit, pRange: int, comp: Component): (Cut, Cut)
    requires h.path < |cut.paths| && h.hit.index + 1 < |cut.paths[h.path]|
  {
    var path := cut.paths[h.path];
    var j := h.hit.index;
    var x := h.hit.point;
    (cut.(paths := cut.paths[h.path := path[..j + 1] + [x]]),
     Cut(cut.component, [[x] + path[j + 1..]], None, cut.typ, pRange, FlipVisibility(cut.visibility, comp)))
  }

  /** The cuts after `SplitCut`. */
  function SplitCuts(cuts: seq<Cut>, cutPath: Option<seq<C>>, pRange: int, comp: Component, consts: Consts): seq<Cut> {
    if |cuts| == 0 then cuts
    else if |cuts| == 1 then []
    else if cutPath.None? then cuts[..|cuts| - 2]
    else
      var cut := cuts[|cuts| - 1];
      var shift := UShift(cut.component, pRange, consts);
      var rest := cuts[..|cuts| - 2];
      match FirstSplit(cut, MovedPath(cutPath.value, comp, shift), 0)
      case Some(h) =>
        var pieces := SplitPieces(cut, h, pRange, comp);
        rest + [ShiftConj(pieces.0, shift), pieces.0, ShiftConj(pieces.1, shift), pieces.1]
      case None => rest + [CutConj(cut), cut]
  }

  /** A move of the p interpolator; nothing happens when there is none. */
  function MovePInterpolator(g: Generator, cmd: Command): Generator {
    if g.rctx.pInt.None? then g
    else g.(rctx := g.rctx.(pInt := Some(g.rctx.pInt.value.(moves := g.rctx.pInt.value.moves + [cmd]))))
  }

  /** `AddGridLineP`: the contour of the p interpolator and its conjugate, unless it ends at a general point. */
  function AddPGridLine(g: Generator, num: Interpolators): Generator {
    if g.rctx.pInt.None? then g
    else
      var path := num.pContour(g.rctx.pInt.value);
      match num.pPoint(g.rctx.pInt.value)
      case AtXp(_, m) => g.(gridP := g.gridP + [GridLine(ConjPath(path), XmLine(m)), GridLine(path, XpLine(m))])
      case AtXm(_, m) => g.(gridP := g.gridP + [GridLine(ConjPath(path), XpLine(m)), GridLine(path, XmLine(m))])
      case AtRe(_) => g.(gridP := g.gridP + [GridLine(ConjPath(path), RealLine), GridLine(path, RealLine)])
      case AtC(_) => g
  }

  /** `ComputeCutX`: the x arc from the branch point to p = 0 or p = 1, in the plane the type says. */
  function CutX(g: Generator, dir: CutDirection, consts: Consts, num: Interpolators): Generator {
    if g.rctx.branchPointData.None? then WithCut(g, None, None)
    else
      var bpd := g.rctx.branchPointData.value;
      var (pStart, pEnd) := if dir == Positive then (0.0, bpd.p) else (bpd.p, 1.0);
      var path: Polyline :=
        if bpd.typ in {XpPositiveAxisImXmNegative, XpNegativeAxisFromAboveWithImXmNegative, XpNegativeAxisFromBelowWithImXmNegative}
        then num.xmArc(pStart, pEnd, bpd.m, consts)
        else num.xpArc(pStart, pEnd, bpd.m, consts);
      WithCut(g, Some(path), Some(if dir == Positive then path[|path| - 1] else path[0]))
  }

  /** `ComputeCutXFull`: the closed scallion or kidney, the x+ half followed by its conjugate run backwards. */
  function CutXFull(g: Generator, xcut: XCut, consts: Consts, num: Interpolators): Generator {
    var half := num.xpFull(if xcut == Scallion then 0.0 else -(consts.k as real), consts);
    var s := num.s(consts);
    WithCut(g, Some(half + CutModel.ReverseConj(half)), Some(if xcut == Scallion then Real(s) else Real(-1.0 / s)))
  }

  /** The energy cut of the energy interpolator in one plane. */
  function CutE(g: Generator, comp: Component, num: Interpolators): Generator {
    if g.rctx.eInt.None? then g
    else
      var bpAndPath := num.eCut(g.rctx.eInt.value, comp);
      WithCut(g, bpAndPath.1, bpAndPath.0)
  }

  /** The commands that add grid lines. */
  predicate IsGridCommand(cmd: Command) {
    cmd.AddGridLineU? || cmd.AddGridLineX? || cmd.AddGridLineXReal? || cmd.AddGridLineP?
  }

  /** The commands that build the path and branch point of the next cut. */
  predicate IsCutPathCommand(cmd: Command) {
    cmd.ClearCut? || cmd.ComputeCutP? || cmd.ComputeBranchPoint? || cmd.ComputeCutX? || cmd.ComputeCutXFull? || cmd.SetCutPath?
  }

  /** `ContourGenerator::execute`: the effect of one command; nothing at all while the constants are unset. */
  function Exec(g: Generator, cmd: Command, num: Interpolators): Generator {
    if g.consts.None? then g
    else if IsGridCommand(cmd) then ExecGrid(g, cmd, num)
    else if IsCutPathCommand(cmd) then ExecCutPath(g, cmd, num)
    else if cmd.PushCut? || cmd.SplitCut? then ExecCutList(g, cmd)
    else ExecOther(g, cmd, num)
  }

  /** The grid line arms of `execute`. */
  function ExecGrid(g: Generator, cmd: Command, num: Interpolators): Generator
    requires g.consts.Some? && IsGridCommand(cmd)
  {
    match cmd
    case AddGridLineU(y) => g.(gridU := g.gridU + [GridLine([C(-INFINITY, y), C(INFINITY, y)], RealLine)])
    case AddGridLineX(m) =>
      var path := num.xpFull(m, g.consts.value);
      g.(gridX := g.gridX + [GridLine(ConjPath(path), XmLine(m)), GridLine(path, XpLine(m))])
    case AddGridLineXReal(x) =>
      g.(gridX := g.gridX + [GridLine([Real(x), Real(if x > 0.0 then INFINITY else -INFINITY)], RealLine)])
    case AddGridLineP => AddPGridLine(g, num)
  }

  /** The arms of `execute` that build the path and branch point of the next cut. */
  function ExecCutPath(g: Generator, cmd: Command, num: Interpolators): Generator
    requires g.consts.Some? && IsCutPathCommand(cmd)
  {
    var consts := g.consts.value;
    match cmd
    case ClearCut => WithCut(g, None, None)
    case ComputeCutP(rev) =>
      if g.rctx.pInt.None? then g
      else
        var contour := num.pContour(g.rctx.pInt.value);
        var newPath := if rev then Reverse(contour) else contour;
        var prev := g.rctx.cutData.path;
        WithCut(g, Some(if prev.Some? then prev.value + newPath else newPath), g.rctx.cutData.branchPoint)
    case ComputeBranchPoint(r, t) =>
      g.(rctx := g.rctx.(branchPointData := ContourCuts.ComputeBranchPoint(r, t, consts, num.findBranchPoint, num.argOverPi)))
    case ComputeCutX(dir) => CutX(g, dir, consts, num)
    case ComputeCutXFull(xcut) => CutXFull(g, xcut, consts, num)
    case SetCutPath(path, bp) => WithCut(g, Some(path), bp)
  }

  /** The arms of `execute` that change the list of cuts. */
  function ExecCutList(g: Generator, cmd: Command): Generator
    requires g.consts.Some? && (cmd.PushCut? || cmd.SplitCut?)
  {
    var consts := g.consts.value;
    match cmd
    case PushCut(r, comp, typ, vis) =>
      var cut := g.rctx.cutData;
      if cut.path.None? then g
      else g.(cuts := g.cuts + PushedCuts(r, comp, typ, vis, cut.path.value, cut.branchPoint, consts))
    case SplitCut(r, comp) => g.(cuts := SplitCuts(g.cuts, g.rctx.cutData.path, r, comp, consts))
  }

  /** The interpolator and energy cut arms of `execute`. */
  function ExecOther(g: Generator, cmd: Command, num: Interpolators): Generator
    requires g.consts.Some? && !IsGridCommand(cmd) && !IsCutPathCommand(cmd) && !cmd.PushCut? && !cmd.SplitCut?
  {
    var consts := g.consts.value;
    match cmd
    case EStart(r) => g.(rctx := g.rctx.(eInt := Some(EInterpolator(r, consts))))
    case PStartXp(p) => g.(rctx := g.rctx.(pInt := Some(PInterpolator(p, consts, []))))
    case PGotoXp(_, _) => MovePInterpolator(g, cmd)
    case PGotoXm(_, _) => MovePInterpolator(g, cmd)
    case PGotoRe(_) => MovePInterpolator(g, cmd)
    case PGotoIm(_) => MovePInterpolator(g, cmd)
    case PGotoP(_) => MovePInterpolator(g, cmd)
    case PGotoM(_) => MovePInterpolator(g, cmd)
    case ComputeCutEP => CutE(g, P, num)
    case ComputeCutEXp => CutE(g, Xp, num)
    case ComputeCutEXm => CutE(g, Xm, num)
    case ComputeCutEU => CutE(g, U, num)
  }

  /**
   * No command touches the queue, the constants, the command count or the
   * cut being built, and only `PushCut` and `SplitCut` touch the cuts.
   */
  lemma ExecFrame(g: Generator, cmd: Command, num: Interpolators)
    ensures var h := Exec(g, cmd, num);
      h.commands == g.commands && h.consts == g.consts && h.numCommands == g.numCommands && h.bctx == g.bctx
    ensures !cmd.PushCut? && !cmd.SplitCut? ==> Exec(g, cmd, num).cuts == g.cuts
    ensures g.consts.None? ==> Exec(g, cmd, num) == g
  {
    if g.consts.Some? {
      if IsGridCommand(cmd) {
        GridFrame(g, cmd, num);
      } else if IsCutPathCommand(cmd) {
        CutPathFrame(g, cmd, num);
      } else if cmd.PushCut? || cmd.SplitCut? {
        CutListFrame(g, cmd);
      } else {
        OtherFrame(g, cmd, num);
      }
    }
  }

  /** The grid line commands change only the grids. */
  lemma GridFrame(g: Generator, cmd: Command, num: Interpolators)
    requires g.consts.Some? && IsGridCommand(cmd)
    ensures var h := ExecGrid(g, cmd, num); h.(gridP := g.gridP, gridX := g.gridX, gridU := g.gridU) == g
  {
  }

  /** The cut path commands change only the runtime context. */
  lemma CutPathFrame(g: Generator, cmd: Command, num: Interpolators)
    requires g.consts.Some? && IsCutPathCommand(cmd)
    ensures ExecCutPath(g, cmd, num).(rctx := g.rctx) == g
  {
  }

  /** `PushCut` and `SplitCut` change only the cuts. */
  lemma CutListFrame(g: Generator, cmd: Command)
    requires g.consts.Some? && (cmd.PushCut? || cmd.SplitCut?)
    ensures ExecCutList(g, cmd).(cuts := g.cuts) == g
  {
  }

  /** The interpolator and energy cut commands change only the runtime context. */
  lemma OtherFrame(g: Generator, cmd: Command, num: Interpolators)
    requires g.consts.Some? && !IsGridCommand(cmd) && !IsCutPathCommand(cmd) && !cmd.PushCut? && !cmd.SplitCut?
    ensures ExecOther(g, cmd, num).(rctx := g.rctx) == g
  {
  }

  /**
   * `PushCut` with a current path appends exactly two cuts and changes
   * nothing else: the conjugate first, then the cut itself, both shifted by
   * an offset that is zero except in the u plane. Outside the u plane the
   * first is the conjugate of the second.
   */
  lemma ExecPushCut(g: Generator, r: int, comp: Component, typ: CutModel.CutType, vis: seq<Condition>, num: Interpolators)
    requires g.consts.Some?
    ensures var h := Exec(g, PushCut(r, comp, typ, vis), num);
      g.rctx.cutData.path.None? ==> h == g
    ensures var h := Exec(g, PushCut(r, comp, typ, vis), num);
      var cd := g.rctx.cutData;
      cd.path.Some? ==>
        |h.cuts| == |g.cuts| + 2 && h.cuts[..|g.cuts|] == g.cuts && h.(cuts := g.cuts) == g &&
        h.cuts[|g.cuts| + 1] == Translated(Cut(comp, [cd.path.value], cd.branchPoint, typ, r, vis), UShift(comp, r, g.consts.value)) &&
        (comp != U ==> h.cuts[|g.cuts|] == CutConj(h.cuts[|g.cuts| + 1]))
  {
    var cd := g.rctx.cutData;
    if cd.path.Some? {
      var h := Exec(g, PushCut(r, comp, typ, vis), num);
      var cut := Cut(comp, [cd.path.value], cd.branchPoint, typ, r, vis);
      assert h.cuts[..|g.cuts|] == g.cuts;
      if comp != U {
        TranslatedZero(cut);
        TranslatedZero(CutConj(cut));
      }
    }
  }

  /**
   * `SplitCut` pops the last two cuts (the conjugate pair of one cut) and,
   * with a current path, pushes four cuts when the path meets the last one
   * and two otherwise. The first piece ends at the hit point and the second
   * starts there, and together they give back the path that was split.
   */
  lemma SplitCutsOutcome(cuts: seq<Cut>, path: seq<C>, r: int, comp: Component, consts: Consts)
    requires |cuts| >= 2
    ensures var n := |cuts| - 2;
      var res := SplitCuts(cuts, Some(path), r, comp, consts);
      var cut := cuts[n + 1];
      var shift := UShift(cut.component, r, consts);
      var h := FirstSplit(cut, MovedPath(path, comp, shift), 0);
      res[..n] == cuts[..n] &&
      (h.None? ==> |res| == n + 2 && res[n + 1] == cut && res[n] == CutConj(cut)) &&
      (h.Some? ==>
        var i := h.value.path;
        var j := h.value.hit.index;
        var x := h.value.hit.point;
        |res| == n + 4 && res[n] == ShiftConj(res[n + 1], shift) && res[n + 2] == ShiftConj(res[n + 3], shift) &&
        res[n + 1].paths[i] == cut.paths[i][..j + 1] + [x] && res[n + 3].paths == [[x] + cut.paths[i][j + 1..]] &&
        res[n + 1].paths[i][j + 1] == x == res[n + 3].paths[0][0] &&
        res[n + 1].paths[i][..j + 1] + res[n + 3].paths[0][1..] == cut.paths[i] &&
        (forall l :: 0 <= l < |cut.paths| && l != i ==> res[n + 1].paths[l] == cut.paths[l]) &&
        res[n + 3].typ == cut.typ && res[n + 3].component == cut.component && res[n + 3].branchPoint.None?)
  {
    var n := |cuts| - 2;
    var cut := cuts[n + 1];
    var shift := UShift(cut.component, r, consts);
    var h := FirstSplit(cut, MovedPath(path, comp, shift), 0);
    var res := SplitCuts(cuts, Some(path), r, comp, consts);
    if h.Some? {
      var i := h.value.path;
      var j := h.value.hit.index;
      var p := cut.paths[i];
      assert p[..j + 1] + p[j + 1..] == p;
    }
  }

  /** The cuts of the u plane's two neighbouring split pieces keep the plane's visibility except the flipped u branch. */
  lemma FlipVisibilityTwice(vs: seq<Condition>, comp: Component)
    ensures FlipVisibility(FlipVisibility(vs, comp), comp) == vs
    ensures |FlipVisibility(vs, comp)| == |vs|
    ensures comp == P || comp == U ==> FlipVisibility(vs, comp) == vs
  {
    var ws := FlipVisibility(FlipVisibility(vs, comp), comp);
    forall i | 0 <= i < |vs|
      ensures ws[i] == vs[i]
    {
    }
  }

  /** The empty generator. */
  function DefaultGenerator(): Generator {
    Generator([], [], None, [], [], [], EMPTY_RUNTIME, EMPTY_BUILD, 0)
  }

  /** `clear`: empties the queue, the cuts and the x and u grids; the p grid is the real segment [-3, 4]. */
  function Cleared(g: Generator): Generator {
    g.(commands := [], gridX := [], gridU := [], cuts := [],
       gridP := [GridLine([Real(P_RANGE_MIN as real), Real(P_RANGE_MAX as real + 1.0)], RealLine)])
  }

  /** The p range of a point: floor(Re p), saturated to an `i32`. */
  function PRangeOf(p: C): int { SaturateI32(p.re.Floor) }

  /** The range p0 - i if it is not below the lowest range, as a list of at most one. */
  function Below(p0: int, i: int): seq<int> { if p0 - i >= P_RANGE_MIN then [p0 - i] else [] }

  /** The range p0 + i if it is not above the highest range. */
  function Above(p0: int, i: int): seq<int> { if p0 + i <= P_RANGE_MAX then [p0 + i] else [] }

  /** The p ranges visited from p0 for the offsets 1..n: p0 first, then p0 - i and p0 + i for growing i, within [-3, 3]. */
  function Visits(p0: int, n: nat): (v: seq<int>)
    ensures |v| >= 1 && v[0] == p0
  {
    if n == 0 then [p0] else Visits(p0, n - 1) + Below(p0, n) + Above(p0, n)
  }

  /** The number of offsets `generate_commands` needs to reach every range from every range: 6. */
  const RANGE_SPAN: nat := P_RANGE_MAX - P_RANGE_MIN

  function Dist(a: int, b: int): nat { if a >= b then a - b else b - a }

  /**
   * A range is visited iff it is p0 or 1..n away from p0 and on the inner
   * side of the bound it approaches (a p0 outside [-3, 3] is not clamped).
   */
  lemma {:induction false} VisitsMembers(p0: int, n: nat, r: int)
    ensures r in Visits(p0, n) <==>
      r == p0 || (1 <= Dist(r, p0) <= n && (r < p0 ==> P_RANGE_MIN <= r) && (r > p0 ==> r <= P_RANGE_MAX))
  {
    if n > 0 {
      VisitsMembers(p0, n - 1, r);
      assert Visits(p0, n) == Visits(p0, n - 1) + Below(p0, n) + Above(p0, n);
      assert r in Below(p0, n) <==> r == p0 - n && p0 - n >= P_RANGE_MIN;
      assert r in Above(p0, n) <==> r == p0 + n && p0 + n <= P_RANGE_MAX;
      assert Dist(r, p0) == n <==> r == p0 - n || r == p0 + n;
    }
  }

  /** The order of visits: by distance from p0, and below before above at equal distance. */
  function VisitRank(r: int, p0: int): int { 2 * Dist(r, p0) + (if r > p0 then 1 else 0) }

  /** The ranges come in order of growing distance from p0, the lower before the upper at each distance. */
  lemma {:induction false} VisitsOrder(p0: int, n: nat)
    ensures forall a, b :: 0 <= a < b < |Visits(p0, n)| ==> VisitRank(Visits(p0, n)[a], p0) < VisitRank(Visits(p0, n)[b], p0)
  {
    if n > 0 {
      VisitsOrder(p0, n - 1);
      var v := Visits(p0, n - 1);
      var w := Visits(p0, n);
      assert w == v + Below(p0, n) + Above(p0, n);
      forall a | 0 <= a < |v|
        ensures VisitRank(v[a], p0) <= 2 * n - 1
      {
        VisitsMembers(p0, n - 1, v[a]);
      }
      forall a, b | 0 <= a < b < |w|
        ensures VisitRank(w[a], p0) < VisitRank(w[b], p0)
      {
        if b >= |v| {
          assert VisitRank(w[b], p0) >= 2 * n;
          if a >= |v| {
            assert w[a] == p0 - n && w[b] == p0 + n;
          }
        }
      }
    }
  }

  /**
   * With the offsets 1..6, every range of [-3, 3] is visited from any p0
   * in [-3, 3], and no range outside it.
   */
  lemma VisitsCoverRange(p0: int)
    requires P_RANGE_MIN <= p0 <= P_RANGE_MAX
    ensures forall r :: P_RANGE_MIN <= r <= P_RANGE_MAX ==> r in Visits(p0, RANGE_SPAN)
    ensures forall r :: r in Visits(p0, RANGE_SPAN) ==> P_RANGE_MIN <= r <= P_RANGE_MAX
  {
    forall r | P_RANGE_MIN <= r <= P_RANGE_MAX
      ensures r in Visits(p0, RANGE_SPAN)
    {
      VisitsMembers(p0, RANGE_SPAN, r);
    }
    forall r | r in Visits(p0, RANGE_SPAN)
      ensures P_RANGE_MIN <= r <= P_RANGE_MAX
    {
      VisitsMembers(p0, RANGE_SPAN, r);
    }
  }

  /**
   * The loop `for i in 1..max` of `generate_commands` stops at the offset
   * max - 1 = 5: from the lowest range the highest is never visited, and
   * from the highest the lowest.
   */
  lemma AsWrittenMissesOppositeEnd()
    ensures P_RANGE_MAX !in Visits(P_RANGE_MIN, RANGE_SPAN - 1)
    ensures P_RANGE_MIN !in Visits(P_RANGE_MAX, RANGE_SPAN - 1)
  {
    VisitsMembers(P_RANGE_MIN, RANGE_SPAN - 1, P_RANGE_MAX);
    VisitsMembers(P_RANGE_MAX, RANGE_SPAN - 1, P_RANGE_MIN);
  }

  /** The commands of the ranges p0 - i and p0 + i, each when it lies on the inner side of its bound. */
  function RangePair(p0: int, i: int, f: int -> seq<Command>): seq<Command> {
    (if p0 - i >= P_RANGE_MIN then f(p0 - i) else []) + (if p0 + i <= P_RANGE_MAX then f(p0 + i) else [])
  }

  /** The commands one pass of `generate_commands` queues for the offsets up to n, in the order of its loop. */
  function RangeCommands(p0: int, n: nat, f: int -> seq<Command>): seq<Command> {
    if n == 0 then f(p0) else RangeCommands(p0, n - 1, f) + RangePair(p0, n, f)
  }

  /** The loop queues the commands of every visited range, one range after the other in visit order. */
  lemma {:induction false} RangeCommandsVisits(p0: int, n: nat, f: int -> seq<Command>)
    ensures RangeCommands(p0, n, f) == ConcatMap(Visits(p0, n), f)
  {
    if n == 0 {
      VisitsStart(p0, f);
    } else {
      calc {
        RangeCommands(p0, n, f);
        RangeCommands(p0, n - 1, f) + RangePair(p0, n, f);
        { RangeCommandsVisits(p0, n - 1, f); }
        ConcatMap(Visits(p0, n - 1), f) + RangePair(p0, n, f);
        { VisitsStep(p0, n, f); }
        ConcatMap(Visits(p0, n), f);
      }
    }
  }

  /** The offset 0 visits p0 alone. */
  lemma VisitsStart(p0: int, f: int -> seq<Command>)
    ensures ConcatMap(Visits(p0, 0), f) == f(p0)
  {
    assert Visits(p0, 0) == [p0] && [p0][..0] == [];
  }

  /** The offset n adds the commands of p0 - n and of p0 + n, where those exist, to the visits before it. */
  lemma VisitsStep(p0: int, n: nat, f: int -> seq<Command>)
    requires n >= 1
    ensures ConcatMap(Visits(p0, n), f) == ConcatMap(Visits(p0, n - 1), f) + RangePair(p0, n, f)
  {
    var v, lo, hi := Visits(p0, n - 1), Below(p0, n), Above(p0, n);
    var a := if lo == [] then [] else f(lo[0]);
    var b := if hi == [] then [] else f(hi[0]);
    calc {
      ConcatMap(Visits(p0, n), f);
      ConcatMap(v + lo + hi, f);
      { ConcatMapAppend(v + lo, hi, f); }
      ConcatMap(v + lo, f) + b;
      { ConcatMapAppend(v, lo, f); }
      ConcatMap(v, f) + a + b;
      { AppendAssoc(ConcatMap(v, f), a, b); }
      ConcatMap(v, f) + (a + b);
      ConcatMap(v, f) + RangePair(p0, n, f);
    }
  }

  /** The u grid: the real line, then the lines at +y/h and -y/h for y = 1..n. */
  function UGrid(h: real, n: nat): seq<Command>
    requires h > 0.0
  {
    if n == 0 then [AddGridLineU(0.0)]
    else UGrid(h, n - 1) + [AddGridLineU(n as real / h), AddGridLineU(-(n as real) / h)]
  }

  /** The u grid has 2n + 1 lines and is symmetric about the real axis. */
  lemma {:induction false} UGridShape(h: real, n: nat)
    requires h > 0.0
    ensures |UGrid(h, n)| == 2 * n + 1
    ensures forall c :: c in UGrid(h, n) ==> c.AddGridLineU? && AddGridLineU(-c.y) in UGrid(h, n)
  {
    if n > 0 {
      UGridShape(h, n - 1);
      var prev := UGrid(h, n - 1);
      var up, down := AddGridLineU(n as real / h), AddGridLineU(-(n as real) / h);
      assert UGrid(h, n) == prev + [up, down];
      assert -(n as real) / h == -(n as real / h);
      forall c | c in UGrid(h, n)
        ensures c.AddGridLineU? && AddGridLineU(-c.y) in UGrid(h, n)
      {
        if c in prev {
          assert AddGridLineU(-c.y) in prev;
        } else if c == up {
          assert AddGridLineU(-c.y) == down;
        } else {
          assert c == down && AddGridLineU(-c.y) == up;
        }
      }
    }
  }

  /** The x grid lines for the bound-state numbers lo..hi-1. */
  function XLines(lo: int, hi: int): seq<Command>
    decreases hi - lo
  {
    if hi <= lo then [] else XLines(lo, hi - 1) + [AddGridLineX((hi - 1) as real)]
  }

  lemma {:induction false} XLinesCount(lo: int, hi: int)
    ensures |XLines(lo, hi)| == if hi <= lo then 0 else hi - lo
    ensures forall i :: 0 <= i < |XLines(lo, hi)| ==> XLines(lo, hi)[i] == AddGridLineX((lo + i) as real)
    decreases hi - lo
  {
    if hi > lo {
      XLinesCount(lo, hi - 1);
    }
  }

  /** `generate_x_grid`: the lines m = p k .. (p + 1) k - 1, plus a real half-line for the ranges 0 and -1. */
  function XGrid(r: int, k: int, s: PosReal): seq<Command> {
    XLines(r * k, (r + 1) * k) +
    (if r == 0 then [AddGridLineXReal(s)] else []) +
    (if r == -1 then [AddGridLineXReal(-1.0 / s)] else [])
  }

  /** The cut commands of each range. */
  function CutsOf(scripts: Scripts, consts: Consts): int -> seq<Command> { r => scripts.cuts(r, consts) }

  /** The x grid commands of each range. */
  function XGridsOf(k: int, s: PosReal): int -> seq<Command> { r => XGrid(r, k, s) }

  /** The p grid commands of each range. */
  function PGridOf(scripts: Scripts, consts: Consts): int -> seq<Command> { r => scripts.pGrid(r, consts) }

  /** The commands of the lists f(r), one range after the other. */
  function ConcatMap(rs: seq<int>, f: int -> seq<Command>): seq<Command> {
    if rs == [] then [] else ConcatMap(rs[..|rs| - 1], f) + f(rs[|rs| - 1])
  }

  lemma ConcatMapAppend(rs: seq<int>, extra: seq<int>, f: int -> seq<Command>)
    requires |extra| <= 1
    ensures ConcatMap(rs + extra, f) == ConcatMap(rs, f) + (if extra == [] then [] else f(extra[0]))
  {
    if extra != [] {
      assert (rs + extra)[..|rs + extra| - 1] == rs;
    } else {
      assert rs + extra == rs;
    }
  }

  /**
   * `generate_commands`: the u grid, then the cuts, the x grid and the p
   * grid, each a pass of the range loop from the point's own range.
   */
  function Generated(pt: PointData, scripts: Scripts, num: Interpolators): seq<Command> {
    var p0 := PRangeOf(pt.p);
    var consts := pt.consts;
    UGrid(consts.h, 100) +
    RangeCommands(p0, RANGE_SPAN, CutsOf(scripts, consts)) +
    RangeCommands(p0, RANGE_SPAN, XGridsOf(consts.k, num.s(consts))) +
    RangeCommands(p0, RANGE_SPAN, PGridOf(scripts, consts))
  }

  /** The queue holds the u grid, then the cuts, the x grids and the p grids of every visited range, each pass in visit order. */
  lemma GeneratedVisits(pt: PointData, scripts: Scripts, num: Interpolators)
    ensures var visits, consts := Visits(PRangeOf(pt.p), RANGE_SPAN), pt.consts;
      Generated(pt, scripts, num) ==
        UGrid(consts.h, 100) +
        ConcatMap(visits, CutsOf(scripts, consts)) +
        ConcatMap(visits, XGridsOf(consts.k, num.s(consts))) +
        ConcatMap(visits, PGridOf(scripts, consts))
  {
    var p0, consts := PRangeOf(pt.p), pt.consts;
    RangeCommandsVisits(p0, RANGE_SPAN, CutsOf(scripts, consts));
    RangeCommandsVisits(p0, RANGE_SPAN, XGridsOf(consts.k, num.s(consts)));
    RangeCommandsVisits(p0, RANGE_SPAN, PGridOf(scripts, consts));
  }

  lemma AppendAssoc(a: seq<Command>, b: seq<Command>, c: seq<Command>)
    ensures a + b + c == a + (b + c)
  {
  }

  lemma AppendFour(q: seq<Command>, a: seq<Command>, b: seq<Command>, c: seq<Command>, d: seq<Command>)
    ensures q + (a + b + c + d) == q + a + b + c + d
  {
  }

  /** The generator after new constants: cleared, with the fresh queue and its length as the command count. */
  function Regenerated(g: Generator, pt: PointData, scripts: Scripts, num: Interpolators): Generator {
    var cmds := Generated(pt, scripts, num);
    Cleared(g).(consts := Some(pt.consts), commands := cmds, numCommands := |cmds|)
  }

  /** The first half of `ContourGenerator::update`: forget constants that changed, and regenerate when there are none. */
  function Prepared(g: Generator, pt: PointData, scripts: Scripts, num: Interpolators): Generator {
    var g1 := if g.consts.Some? && g.consts.value != pt.consts then g.(consts := None) else g;
    if g1.consts.None? then Regenerated(g1, pt, scripts, num) else g1
  }

  /** The second half of `ContourGenerator::update`: run the first queued command, and report an empty queue. */
  function Step(g: Generator, num: Interpolators): (Generator, bool) {
    if g.commands == [] then (g, true)
    else
      var g1 := Exec(g.(commands := g.commands[1..]), g.commands[0], num);
      (g1, g1.commands == [])
  }

  /** `ContourGenerator::update`: the new state and whether the queue is now empty. */
  function UpdateSpec(g: Generator, pt: PointData, scripts: Scripts, num: Interpolators): (Generator, bool) {
    Step(Prepared(g, pt, scripts, num), num)
  }

  /** The queue never holds more commands than were generated. */
  predicate Valid(g: Generator) {
    |g.commands| <= g.numCommands
  }

  /**
   * `update` ends with the point's constants set, returns whether the queue
   * is empty, and removes at most one command from the queue: from the old
   * queue when the constants are unchanged, from a freshly generated one
   * otherwise. It keeps `Valid`.
   */
  lemma UpdateOutcome(g: Generator, pt: PointData, scripts: Scripts, num: Interpolators)
    ensures var (h, done) := UpdateSpec(g, pt, scripts, num);
      h.consts == Some(pt.consts) && (done <==> h.commands == []) && (Valid(g) ==> Valid(h))
    ensures var (h, done) := UpdateSpec(g, pt, scripts, num);
      g.consts == Some(pt.consts) ==>
        h.numCommands == g.numCommands && h.commands == (if g.commands == [] then [] else g.commands[1..])
    ensures var (h, done) := UpdateSpec(g, pt, scripts, num);
      var cmds := Generated(pt, scripts, num);
      g.consts != Some(pt.consts) ==>
        h.numCommands == |cmds| && h.commands == (if cmds == [] then [] else cmds[1..])
  {
    var g1 := if g.consts.Some? && g.consts.value != pt.consts then g.(consts := None) else g;
    var g2 := if g1.consts.None? then Regenerated(g1, pt, scripts, num) else g1;
    if g2.commands != [] {
      ExecFrame(g2.(commands := g2.commands[1..]), g2.commands[0], num);
    }
  }

  /** `progress`: commands done and commands in all, or (0, 1) before anything was generated. */
  function ProgressOf(g: Generator): (r: (nat, nat))
    requires Valid(g)
    ensures r.0 <= r.1 && r.1 >= 1
    ensures r.0 == r.1 <==> g.numCommands > 0 && g.commands == []
    ensures g.numCommands > 0 ==> r.1 == g.numCommands && r.0 + |g.commands| == g.numCommands
  {
    if g.numCommands > 0 then (g.numCommands - |g.commands|, g.numCommands) else (0, 1)
  }

  function Filter(cuts: seq<Cut>, keep: Cut -> bool): (r: seq<Cut>)
    ensures |r| <= |cuts|
    ensures forall c :: c in r <==> c in cuts && keep(c)
  {
    if cuts == [] then []
    else
      var last := cuts[|cuts| - 1];
      assert cuts == cuts[..|cuts| - 1] + [last];
      Filter(cuts[..|cuts| - 1], keep) + (if keep(last) then [last] else [])
  }

  /** The point with u moved to the sheet of its x+ log branch, as the cuts are stored. */
  function UShifted(pt: PointData): PointData {
    pt.(u := Add(pt.u, C(0.0, 2.0 * (pt.sheet.logBranchP * pt.consts.k) as real / pt.consts.h)))
  }

  /** `get_visible_cuts`: the cuts of the plane whose conditions hold at the point. */
  function VisibleCuts(cuts: seq<Cut>, pt: PointData, comp: Component, longCuts: bool): (r: seq<Cut>)
    ensures |r| <= |cuts|
    ensures forall c :: c in r <==> c in cuts && c.component == comp && IsVisible(c, pt, longCuts)
  {
    VisibilityIgnoresU(cuts, pt, longCuts);
    Filter(cuts, (c: Cut) => c.component == comp && IsVisible(c, UShifted(pt), longCuts))
  }

  /** No condition looks at u, so shifting u does not change which cuts are visible. */
  lemma VisibilityIgnoresU(cuts: seq<Cut>, pt: PointData, longCuts: bool)
    ensures forall c :: IsVisible(c, UShifted(pt), longCuts) == IsVisible(c, pt, longCuts)
  {
    forall c: Cut
      ensures IsVisible(c, UShifted(pt), longCuts) == IsVisible(c, pt, longCuts)
    {
      forall v | v in c.visibility
        ensures v.Check(UShifted(pt), longCuts) == v.Check(pt, longCuts)
      {
      }
    }
  }

  /** The end of a move in the plane of the cuts: shifted like u when the plane is u. */
  function MoveTarget(pt: PointData, comp: Component, value: C): C {
    if comp == U then Add(value, C(0.0, 2.0 * (pt.sheet.logBranchP * pt.consts.k) as real / pt.consts.h)) else value
  }

  /** `get_crossed_cuts`: the visible cuts of the plane that the move to the new value meets. */
  function CrossedCuts(cuts: seq<Cut>, pt: PointData, comp: Component, value: C, longCuts: bool): (r: seq<Cut>)
    ensures |r| <= |cuts|
    ensures forall c :: c in r <==> (c in VisibleCuts(cuts, pt, comp, longCuts) &&
      FirstPathHit(c.paths, Get(UShifted(pt), comp), MoveTarget(pt, comp, value), 0).Some?)
  {
    VisibilityIgnoresU(cuts, pt, longCuts);
    var from := Get(UShifted(pt), comp);
    var to := MoveTarget(pt, comp, value);
    Filter(cuts, (c: Cut) => c.component == comp && IsVisible(c, UShifted(pt), longCuts) && FirstPathHit(c.paths, from, to, 0).Some?)
  }

  /** The contour generator, whose queue, cuts, grids and contexts change in place. */
  class ContourGenerator {
    var cuts: seq<Cut>
    var commands: seq<Command>
    var consts: Option<Consts>
    var gridP: seq<GridLine>
    var gridX: seq<GridLine>
    var gridU: seq<GridLine>
    var rctx: RuntimeContext
    var bctx: BuildTimeCutData
    var numCommands: nat

    function Value(): Generator
      reads this
    {
      Generator(cuts, commands, consts, gridP, gridX, gridU, rctx, bctx, numCommands)
    }

    /** `ContourGenerator::default`. */
    constructor Default()
      ensures Value() == DefaultGenerator()
    {
      cuts, commands, consts := [], [], None;
      gridP, gridX, gridU := [], [], [];
      rctx, bctx := EMPTY_RUNTIME, EMPTY_BUILD;
      numCommands := 0;
    }

    /** `ContourGenerator::progress`. */
    function Progress(): (r: (nat, nat))
      reads this
      requires Valid(Value())
      ensures r.0 <= r.1 && r.1 >= 1
      ensures r.0 == r.1 <==> numCommands > 0 && commands == []
    {
      ProgressOf(Value())
    }

    /** `ContourGenerator::clear`. */
    method Clear()
      modifies this
      ensures Value() == Cleared(old(Value()))
    {
      commands, gridX, gridU, cuts := [], [], [], [];
      gridP := [GridLine([Real(P_RANGE_MIN as real), Real(P_RANGE_MAX as real + 1.0)], RealLine)];
    }

    /** `ContourGenerator::update`: regenerates on new constants, runs at most one command, reports an empty queue. */
    method Update(pt: PointData, scripts: Scripts, num: Interpolators) returns (done: bool)
      modifies this
      ensures (Value(), done) == UpdateSpec(old(Value()), pt, scripts, num)
    {
      Prepare(pt, scripts, num);
      if |commands| > 0 {
        var cmd := commands[0];
        commands := commands[1..];
        Execute(cmd, num);
      }
      done := commands == [];
    }

    /** The regeneration half of `update`. */
    method Prepare(pt: PointData, scripts: Scripts, num: Interpolators)
      modifies this
      ensures Value() == Prepared(old(Value()), pt, scripts, num)
    {
      if consts.Some? && consts.value != pt.consts {
        consts := None;
      }
      if consts.None? {
        Clear();
        consts := Some(pt.consts);
        GenerateCommands(pt, scripts, num);
        numCommands := |commands|;
      }
    }

    /** `add`: appends a command to the queue. */
    method Add(cmd: Command)
      modifies this`commands
      ensures commands == old(commands) + [cmd]
    {
      commands := commands + [cmd];
    }

    /** Appends a list of commands to the queue. */
    method AddAll(cmds: seq<Command>)
      modifies this`commands
      ensures commands == old(commands) + cmds
    {
      commands := commands + cmds;
    }

    /** `create_cut`: starts describing a cut (a previous unfinished one is only warned about). */
    method CreateCut(comp: Component, typ: CutModel.CutType)
      modifies this`bctx
      ensures bctx == old(bctx).(component := Some(comp), cutType := Some(typ))
    {
      bctx := bctx.(component := Some(comp), cutType := Some(typ));
    }

    /** One of the visibility builders (`log_branch`, `im_xp_positive`, `xp_inside`, ...): adds its condition. */
    method AddVisibility(cond: Condition)
      modifies this`bctx
      ensures bctx == old(bctx).(visibility := old(bctx.visibility) + [cond])
    {
      bctx := bctx.(visibility := bctx.visibility + [cond]);
    }

    /**
     * `push_cut`: queues a `PushCut` with the described cut only when both
     * its plane and its type are set, and always clears the description.
     */
    method PushCutCommand(pRange: int)
      modifies this`commands, this`bctx
      ensures bctx == EMPTY_BUILD
      ensures old(bctx.component).Some? && old(bctx.cutType).Some? ==>
        commands == old(commands) + [PushCut(pRange, old(bctx.component).value, old(bctx.cutType).value, old(bctx.visibility))]
      ensures old(bctx.component).None? || old(bctx.cutType).None? ==> commands == old(commands)
    {
      var comp := bctx.component;
      bctx := bctx.(component := None);
      if comp.None? {
        bctx := EMPTY_BUILD;
        return;
      }
      var typ := bctx.cutType;
      bctx := bctx.(cutType := None);
      if typ.None? {
        bctx := EMPTY_BUILD;
        return;
      }
      Add(PushCut(pRange, comp.value, typ.value, bctx.visibility));
      bctx := EMPTY_BUILD;
    }

    /**
     * The first cut of `generate_cuts` (the x+ log cut along the negative
     * real axis), written with the builder: it queues the clearing of the
     * cut, its path and the `PushCut` that carries the log-branch condition.
     */
    method GenerateXpLogCut(pRange: int)
      modifies this`commands, this`bctx
      requires bctx.visibility == []
      ensures commands == old(commands) + [ClearCut, SetCutPath([Real(-INFINITY), Real(0.0)], Some(Real(0.0))),
                                           PushCut(pRange, Xp, CutModel.Log(Xp), [LogBranch(pRange)])]
      ensures bctx == EMPTY_BUILD
    {
      Add(ClearCut);
      Add(SetCutPath([Real(-INFINITY), Real(0.0)], Some(Real(0.0))));
      ghost var queued := commands;
      assert queued == old(commands) + [ClearCut, SetCutPath([Real(-INFINITY), Real(0.0)], Some(Real(0.0)))];
      CreateCut(Xp, CutModel.Log(Xp));
      AddVisibility(LogBranch(pRange));
      assert commands == queued && bctx == BuildTimeCutData(Some(Xp), Some(CutModel.Log(Xp)), [LogBranch(pRange)]);
      PushCutCommand(pRange);
    }

    /** `generate_u_grid`. */
    method GenerateUGrid(h: real)
      modifies this`commands
      requires h > 0.0
      ensures commands == old(commands) + UGrid(h, 100)
    {
      Add(AddGridLineU(0.0));
      var y := 1;
      while y <= 100
        invariant 1 <= y <= 101
        invariant commands == old(commands) + UGrid(h, y - 1)
      {
        Add(AddGridLineU(y as real / h));
        Add(AddGridLineU(-(y as real) / h));
        y := y + 1;
      }
    }

    /** `generate_x_grid`. */
    method GenerateXGrid(r: int, k: int, s: PosReal)
      modifies this`commands
      ensures commands == old(commands) + XGrid(r, k, s)
    {
      var m := r * k;
      while m < (r + 1) * k
        invariant r * k <= m || (r + 1) * k <= r * k
        invariant m <= (r + 1) * k || (r + 1) * k <= r * k
        invariant commands == old(commands) + XLines(r * k, if (r + 1) * k <= r * k then r * k else m)
      {
        Add(AddGridLineX(m as real));
        m := m + 1;
      }
      if r == 0 {
        Add(AddGridLineXReal(s));
      }
      if r == -1 {
        Add(AddGridLineXReal(-1.0 / s));
      }
    }

    /**
     * `generate_commands`. The offsets run over 1..=6 so that every range of
     * [-3, 3] is reached from any start in it (see `VisitsCoverRange`).
     */
    method GenerateCommands(pt: PointData, scripts: Scripts, num: Interpolators)
      modifies this`commands
      ensures commands == old(commands) + Generated(pt, scripts, num)
    {
      var cc := pt.consts;
      var p0 := PRangeOf(pt.p);
      GenerateUGrid(cc.h);
      AddForRanges(p0, CutsOf(scripts, cc));
      GenerateXGrids(p0, cc.k, num.s(cc));
      AddForRanges(p0, PGridOf(scripts, cc));
      AppendFour(old(commands), UGrid(cc.h, 100), RangeCommands(p0, RANGE_SPAN, CutsOf(scripts, cc)),
                 RangeCommands(p0, RANGE_SPAN, XGridsOf(cc.k, num.s(cc))), RangeCommands(p0, RANGE_SPAN, PGridOf(scripts, cc)));
    }

    /** One pass of `generate_commands`: the commands of p0, then of p0 - i and p0 + i for i in 1..=6. */
    method AddForRanges(p0: int, f: int -> seq<Command>)
      modifies this`commands
      ensures commands == old(commands) + RangeCommands(p0, RANGE_SPAN, f)
    {
      var base := commands;
      AddAll(f(p0));
      var i := 1;
      while i <= RANGE_SPAN
        invariant 1 <= i <= RANGE_SPAN + 1
        invariant commands == base + RangeCommands(p0, i - 1, f)
      {
        AppendAssoc(base, RangeCommands(p0, i - 1, f), RangePair(p0, i, f));
        AddRangePair(p0, i, f);
        i := i + 1;
      }
    }

    /** One round of the loop of `generate_commands`: the commands of p0 - i and then of p0 + i, where those exist. */
    method AddRangePair(p0: int, i: int, f: int -> seq<Command>)
      modifies this`commands
      ensures commands == old(commands) + RangePair(p0, i, f)
    {
      if p0 - i >= P_RANGE_MIN {
        AddAll(f(p0 - i));
      }
      if p0 + i <= P_RANGE_MAX {
        AddAll(f(p0 + i));
      }
    }

    /** The x grid pass of `generate_commands`, in the same order of ranges. */
    method GenerateXGrids(p0: int, k: int, s: PosReal)
      modifies this`commands
      ensures commands == old(commands) + RangeCommands(p0, RANGE_SPAN, XGridsOf(k, s))
    {
      var base := commands;
      GenerateXGrid(p0, k, s);
      var i := 1;
      while i <= RANGE_SPAN
        invariant 1 <= i <= RANGE_SPAN + 1
        invariant commands == base + RangeCommands(p0, i - 1, XGridsOf(k, s))
      {
        AppendAssoc(base, RangeCommands(p0, i - 1, XGridsOf(k, s)), RangePair(p0, i, XGridsOf(k, s)));
        GenerateXGridPair(p0, i, k, s);
        i := i + 1;
      }
    }

    /** One round of the x grid loop: the grids of p0 - i and then of p0 + i, where those exist. */
    method GenerateXGridPair(p0: int, i: int, k: int, s: PosReal)
      modifies this`commands
      ensures commands == old(commands) + RangePair(p0, i, XGridsOf(k, s))
    {
      if p0 - i >= P_RANGE_MIN {
        GenerateXGrid(p0 - i, k, s);
      }
      if p0 + i <= P_RANGE_MAX {
        GenerateXGrid(p0 + i, k, s);
      }
    }

    /** `ContourGenerator::execute`. */
    method Execute(cmd: Command, num: Interpolators)
      modifies this
      ensures Value() == Exec(old(Value()), cmd, num)
    {
      if consts.None? {
        return;
      }
      var cc := consts.value;
      if IsGridCommand(cmd) {
        ExecuteGrid(cmd, num, cc);
        return;
      }
      if IsCutPathCommand(cmd) {
        ExecuteCutPath(cmd, num, cc);
        return;
      }
      if cmd.PushCut? {
        ExecutePushCut(cmd.pRange, cmd.component, cmd.cutType, cmd.visibility, cc);
      } else if cmd.SplitCut? {
        ExecuteSplitCut(cmd.pRange, cmd.component, cc);
      } else {
        ExecuteOther(cmd, num, cc);
      }
    }

    /** The interpolator and energy cut arms of `execute`. */
    method ExecuteOther(cmd: Command, num: Interpolators, cc: Consts)
      requires consts == Some(cc) && !IsGridCommand(cmd) && !IsCutPathCommand(cmd) && !cmd.PushCut? && !cmd.SplitCut?
      modifies this
      ensures Value() == ExecOther(old(Value()), cmd, num)
    {
      match cmd
      case EStart(r) =>
        rctx := rctx.(eInt := Some(EInterpolator(r, cc)));
      case PStartXp(p) =>
        rctx := rctx.(pInt := Some(PInterpolator(p, cc, [])));
      case PGotoXp(_, _) => Goto(cmd);
      case PGotoXm(_, _) => Goto(cmd);
      case PGotoRe(_) => Goto(cmd);
      case PGotoIm(_) => Goto(cmd);
      case PGotoP(_) => Goto(cmd);
      case PGotoM(_) => Goto(cmd);
      case ComputeCutEP => TakeECut(P, num);
      case ComputeCutEXp => TakeECut(Xp, num);
      case ComputeCutEXm => TakeECut(Xm, num);
      case ComputeCutEU => TakeECut(U, num);
    }

    /** The grid line arms of `execute`. */
    method ExecuteGrid(cmd: Command, num: Interpolators, cc: Consts)
      requires consts == Some(cc) && IsGridCommand(cmd)
      modifies this
      ensures Value() == ExecGrid(old(Value()), cmd, num)
    {
      match cmd
      case AddGridLineU(y) =>
        gridU := gridU + [GridLine([C(-INFINITY, y), C(INFINITY, y)], RealLine)];
      case AddGridLineX(m) =>
        var path := num.xpFull(m, cc);
        gridX := gridX + [GridLine(ConjPath(path), XmLine(m))];
        gridX := gridX + [GridLine(path, XpLine(m))];
      case AddGridLineXReal(x) =>
        if x > 0.0 {
          gridX := gridX + [GridLine([Real(x), Real(INFINITY)], RealLine)];
        } else {
          gridX := gridX + [GridLine([Real(x), Real(-INFINITY)], RealLine)];
        }
      case AddGridLineP =>
        if rctx.pInt.None? {
          return;
        }
        var path := num.pContour(rctx.pInt.value);
        var comps;
        match num.pPoint(rctx.pInt.value) {
          case AtXp(_, m) => comps := (XpLine(m), XmLine(m));
          case AtXm(_, m) => comps := (XmLine(m), XpLine(m));
          case AtRe(_) => comps := (RealLine, RealLine);
          case AtC(_) => return;
        }
        gridP := gridP + [GridLine(ConjPath(path), comps.1)];
        gridP := gridP + [GridLine(path, comps.0)];
    }

    /** The arms of `execute` that build the path and branch point of the next cut. */
    method ExecuteCutPath(cmd: Command, num: Interpolators, cc: Consts)
      requires consts == Some(cc) && IsCutPathCommand(cmd)
      modifies this
      ensures Value() == ExecCutPath(old(Value()), cmd, num)
    {
      match cmd
      case ClearCut =>
        rctx := rctx.(cutData := RuntimeCutData(None, None));
      case ComputeCutP(rev) =>
        if rctx.pInt.None? {
          return;
        }
        var newPath := if rev then Reverse(num.pContour(rctx.pInt.value)) else num.pContour(rctx.pInt.value);
        if rctx.cutData.path.Some? {
          rctx := rctx.(cutData := rctx.cutData.(path := Some(rctx.cutData.path.value + newPath)));
        } else {
          rctx := rctx.(cutData := rctx.cutData.(path := Some(newPath)));
        }
      case ComputeBranchPoint(r, t) =>
        rctx := rctx.(branchPointData := ContourCuts.ComputeBranchPoint(r, t, cc, num.findBranchPoint, num.argOverPi));
      case ComputeCutX(dir) => BuildCutX(dir, num, cc);
      case ComputeCutXFull(xcut) => BuildCutXFull(xcut, num, cc);
      case SetCutPath(path, bp) =>
        rctx := rctx.(cutData := RuntimeCutData(bp, Some(path)));
    }

    /** The `ComputeCutX` arm: the arc of x+ or x- from the branch point, in the requested direction. */
    method BuildCutX(dir: CutDirection, num: Interpolators, cc: Consts)
      modifies this
      ensures Value() == CutX(old(Value()), dir, cc, num)
    {
      rctx := rctx.(cutData := RuntimeCutData(None, None));
      if rctx.branchPointData.None? {
        return;
      }
      var bpd := rctx.branchPointData.value;
      var pStart, pEnd := if dir == Positive then 0.0 else bpd.p, if dir == Positive then bpd.p else 1.0;
      var path: Polyline;
      if bpd.typ in {XpPositiveAxisImXmNegative, XpNegativeAxisFromAboveWithImXmNegative, XpNegativeAxisFromBelowWithImXmNegative} {
        path := num.xmArc(pStart, pEnd, bpd.m, cc);
      } else {
        path := num.xpArc(pStart, pEnd, bpd.m, cc);
      }
      var bp := if dir == Positive then path[|path| - 1] else path[0];
      rctx := rctx.(cutData := RuntimeCutData(Some(bp), Some(path)));
    }

    /** The `ComputeCutXFull` arm: the closed scallion or kidney. */
    method BuildCutXFull(xcut: XCut, num: Interpolators, cc: Consts)
      modifies this
      ensures Value() == CutXFull(old(Value()), xcut, cc, num)
    {
      rctx := rctx.(cutData := RuntimeCutData(None, None));
      var m := if xcut == Scallion then 0.0 else -(cc.k as real);
      var half := num.xpFull(m, cc);
      var path := half + CutModel.ReverseConj(half);
      var bp := if xcut == Scallion then Real(num.s(cc)) else Real(-1.0 / num.s(cc));
      rctx := rctx.(cutData := RuntimeCutData(Some(bp), Some(path)));
    }

    /** A move of the p interpolator, if there is one. */
    method Goto(cmd: Command)
      modifies this
      ensures Value() == MovePInterpolator(old(Value()), cmd)
    {
      if rctx.pInt.Some? {
        rctx := rctx.(pInt := Some(rctx.pInt.value.(moves := rctx.pInt.value.moves + [cmd])));
      }
    }

    /** Takes the energy cut of one plane from the energy interpolator, if there is one. */
    method TakeECut(comp: Component, num: Interpolators)
      modifies this
      ensures Value() == CutE(old(Value()), comp, num)
    {
      if rctx.eInt.None? {
        return;
      }
      var bpAndPath := num.eCut(rctx.eInt.value, comp);
      rctx := rctx.(cutData := RuntimeCutData(bpAndPath.0, bpAndPath.1));
    }

    /** The `PushCut` arm of `execute`. */
    method ExecutePushCut(r: int, comp: Component, typ: CutModel.CutType, vis: seq<Condition>, cc: Consts)
      modifies this
      ensures rctx.cutData.path.None? ==> Value() == old(Value())
      ensures rctx.cutData.path.Some? ==>
        Value() == old(Value()).(cuts := old(cuts) + PushedCuts(r, comp, typ, vis, rctx.cutData.path.value, rctx.cutData.branchPoint, cc))
    {
      if rctx.cutData.path.None? {
        return;
      }
      var shift := if comp == U then C(0.0, (r * cc.k) as real / cc.h) else C(0.0, 0.0);
      var cut := Cut(comp, [rctx.cutData.path.value], rctx.cutData.branchPoint, typ, r, vis);
      var conjugate := Shift(CutConj(cut), shift);
      cuts := cuts + [conjugate];
      var shifted := Shift(cut, shift);
      cuts := cuts + [shifted];
    }

    /** The `SplitCut` arm of `execute`: walks the windows of the cut path and splits at the first hit. */
    method ExecuteSplitCut(r: int, comp: Component, cc: Consts)
      modifies this
      ensures Value() == old(Value()).(cuts := SplitCuts(old(cuts), rctx.cutData.path, r, comp, cc))
    {
      if |cuts| == 0 {
        return;
      }
      var cut := cuts[|cuts| - 1];
      if |cuts| == 1 {
        cuts := [];
        return;
      }
      var rest := cuts[..|cuts| - 2];
      if rctx.cutData.path.None? {
        cuts := rest;
        return;
      }
      var shift := UShift(cut.component, r, cc);
      var h := FindSplit(cut, MovedPath(rctx.cutData.path.value, comp, shift));
      if h.Some? {
        var pieces := SplitPieces(cut, h.value, r, comp);
        cuts := rest + [ShiftConj(pieces.0, shift), pieces.0, ShiftConj(pieces.1, shift), pieces.1];
      } else {
        cuts := rest + [CutConj(cut), cut];
      }
    }
  }

  /** The search of `SplitCut`: the first window of the moved path that crosses the cut. */
  method FindSplit(cut: Cut, pts: seq<C>) returns (h: Option<PathHit>)
    ensures h == FirstSplit(cut, pts, 0)
    ensures h.Some? ==> h.value.path < |cut.paths| && h.value.hit.index + 1 < |cut.paths[h.value.path]|
  {
    var w := 0;
    while w + 1 < |pts|
      invariant FirstSplit(cut, pts, 0) == FirstSplit(cut, pts, w)
    {
      h := Intersection(cut, pts[w], pts[w + 1]);
      if h.Some? {
        return;
      }
      w := w + 1;
    }
    h := None;
  }
}
