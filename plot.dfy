/**
 * The plot state of the `plot` crate and the pure decisions of its drawing
 * code: which cuts pass the cut filter, which are drawn and in what colour,
 * the period shifts of a cut, the shift of the u plane and the fill of a
 * point.
 */
module PlotModel {
  import opened Wrappers
  import opened Complex
  import opened Kinematics
  import opened PointModel
  import opened CutModel

  datatype Theme = Normal | Black

  /** Which cut types the plots show. */
  datatype CutFilter = AllCuts | NoCuts | Only(types: seq<CutType>)

  /** An RGB colour of the drawing code. */
  datatype Color = Rgb(r: int, g: int, b: int)

  const BLACK: Color := Rgb(0, 0, 0)
  const BLUE: Color := Rgb(0, 0, 255)
  const GRAY: Color := Rgb(160, 160, 160)

  /** The `cut_filter` match of `draw_cuts`. */
  predicate Passes(filter: CutFilter, typ: CutType) {
    match filter
    case AllCuts => true
    case NoCuts => false
    case Only(v) => typ in v
  }

  /** The cuts that pass the filter, in order (`Iterator::filter`). */
  function FilterCuts(cuts: seq<Cut>, filter: CutFilter): (r: seq<Cut>)
    ensures forall c :: c in r <==> c in cuts && Passes(filter, c.typ)
    ensures |r| <= |cuts|
  {
    if cuts == [] then []
    else FilterCuts(cuts[..|cuts| - 1], filter) + (if Passes(filter, cuts[|cuts| - 1].typ) then [cuts[|cuts| - 1]] else [])
  }

  /** `All` keeps the cuts as they are, `None` keeps none, `Only(v)` keeps those whose type is in v. */
  lemma FilterCutsCases(cuts: seq<Cut>, types: seq<CutType>)
    ensures FilterCuts(cuts, AllCuts) == cuts
    ensures FilterCuts(cuts, NoCuts) == []
    ensures forall c :: c in FilterCuts(cuts, Only(types)) <==> c in cuts && c.typ in types
  {
    FilterAllKeeps(cuts);
    FilterNoneEmpty(cuts);
  }

  lemma {:induction false} FilterAllKeeps(cuts: seq<Cut>)
    ensures FilterCuts(cuts, AllCuts) == cuts
  {
    if cuts != [] {
      FilterAllKeeps(cuts[..|cuts| - 1]);
      assert cuts[..|cuts| - 1] + [cuts[|cuts| - 1]] == cuts;
    }
  }

  lemma {:induction false} FilterNoneEmpty(cuts: seq<Cut>)
    ensures FilterCuts(cuts, NoCuts) == []
  {
    if cuts != [] {
      FilterNoneEmpty(cuts[..|cuts| - 1]);
    }
  }

  /**
   * The `hide_log_cut` closure of `draw_cuts`: a log or long u cut of the
   * x+ (x-) component is hidden when it is not the cut's own component, or
   * when the x- (x+) half of the active point's u branch is `Between`.
   */
  predicate HideLogCut(comp: Component, cut: Cut, active: SheetData) {
    comp != cut.component
    || (comp == Xp && active.uBranch.1 == Between)
    || (comp == Xm && active.uBranch.0 == Between)
  }

  /** The colour `draw_cuts` draws a visible cut with, or None when it skips the cut (`continue`). */
  function CutColor(cut: Cut, theme: Theme, active: SheetData): Option<Color> {
    if theme == Black then Some(BLACK)
    else
      match cut.typ
      case E => Some(BLACK)
      case Log(comp) =>
        if HideLogCut(comp, cut, active) then None
        else if comp == Xp then Some(Rgb(255, 128, 128)) else Some(Rgb(128, 255, 128))
      case ULongNegative(_) => None
      case ULongPositive(comp) =>
        if HideLogCut(comp, cut, active) then None
        else if comp == Xp then Some(Rgb(255, 0, 0)) else Some(Rgb(0, 192, 0))
      case UShortScallion(comp) => if comp == Xp then Some(Rgb(255, 0, 0)) else Some(Rgb(0, 192, 0))
      case UShortKidney(comp) => if comp == Xp then Some(Rgb(255, 0, 0)) else Some(Rgb(0, 192, 0))
      case DebugPath => Some(Rgb(255, 128, 0))
  }

  /**
   * Which visible cuts are drawn: in the normal theme the `ULongNegative`
   * cuts never are and the E and short u cuts always are, while the log and
   * long positive cuts are drawn exactly when they are not hidden; the black
   * theme draws every cut in black.
   */
  lemma CutDrawing(cut: Cut, theme: Theme, active: SheetData)
    ensures theme == Black ==> CutColor(cut, theme, active) == Some(BLACK)
    ensures theme == Normal && cut.typ.ULongNegative? ==> CutColor(cut, theme, active).None?
    ensures theme == Normal && (cut.typ.E? || cut.typ.UShortScallion? || cut.typ.UShortKidney? || cut.typ.DebugPath?) ==>
      CutColor(cut, theme, active).Some?
    ensures theme == Normal && (cut.typ.Log? || cut.typ.ULongPositive?) ==>
      (CutColor(cut, theme, active).None? <==> HideLogCut(cut.typ.component, cut, active))
  {
  }

  /**
   * The shifts at which `draw_cuts` draws a cut: n * 2k/h for n = -5..5 when
   * the cut is periodic, the single shift 0 otherwise.
   */
  function PeriodShifts(periodic: bool, consts: Consts): (r: seq<real>)
    ensures periodic ==> |r| == 11 && forall i :: 0 <= i < 11 ==> r[i] == (i - 5) as real * (2.0 * consts.k as real / consts.h)
    ensures !periodic ==> r == [0.0]
  {
    if periodic then
      var period := 2.0 * consts.k as real / consts.h;
      seq(11, i requires 0 <= i < 11 => (i - 5) as real * period)
    else [0.0]
  }

  /** The shifts of a periodic cut are symmetric about 0 and include 0. */
  lemma PeriodShiftsSymmetric(consts: Consts)
    ensures var r := PeriodShifts(true, consts);
      r[5] == 0.0 && forall i :: 0 <= i < 11 ==> r[10 - i] == -r[i]
  {
  }

  /**
   * The horizontal shift of the cuts in the u plane: 2 * (log_branch_p * k) / h
   * for the active point, 0 in the other planes.
   */
  function CutsShift(comp: Component, active: SheetData, consts: Consts): (s: real)
    ensures comp != U ==> s == 0.0
    ensures comp == U && active.logBranchP == 0 ==> s == 0.0
  {
    if comp == U then 2.0 * (active.logBranchP * consts.k) as real / consts.h else 0.0
  }

  /** The u shifts of sheets whose `log_branch_p` differ by one differ by one period 2k/h. */
  lemma CutsShiftStep(active: SheetData, consts: Consts)
    ensures CutsShift(U, active.(logBranchP := active.logBranchP + 1), consts) == CutsShift(U, active, consts) + 2.0 * consts.k as real / consts.h
  {
    var n := active.logBranchP;
    assert ((n + 1) * consts.k) as real == (n * consts.k) as real + consts.k as real;
  }

  /** The fill of point i: blue for the active point, black on the same sheet as the active point, gray otherwise. */
  function PointFill(points: seq<Point>, i: nat, active: nat, comp: Component): (fill: Color)
    requires i < |points| && active < |points|
    ensures i == active ==> fill == BLUE
    ensures i != active && points[i].sheetData == points[active].sheetData ==> fill == BLACK
    ensures fill == GRAY <==> i != active && !SameSheet(points[i], points[active], comp)
  {
    if i == active then BLUE
    else if SameSheet(points[i], points[active], comp) then BLACK
    else GRAY
  }

  /** The transient interaction state of the plots and the display settings. */
  class PlotState {
    var activePoint: nat
    var interactionPoint: Option<nat>
    var interactionComponent: Option<Component>
    var hovered: bool
    var dragged: bool
    var pathIndices: seq<nat>
    var fullscreenComponent: Option<Component>
    var cutFilter: CutFilter
    var theme: Theme

    /** `PlotState::default`. */
    constructor ()
      ensures activePoint == 0 && interactionPoint == None && interactionComponent == None
      ensures !hovered && !dragged && pathIndices == [] && fullscreenComponent == None
      ensures cutFilter == AllCuts && theme == Normal
    {
      activePoint := 0;
      interactionPoint := None;
      interactionComponent := None;
      hovered := false;
      dragged := false;
      pathIndices := [];
      fullscreenComponent := None;
      cutFilter := AllCuts;
      theme := Normal;
    }

    /** `reset`: forgets the interaction, nothing else. */
    method Reset()
      modifies this
      ensures interactionPoint == None && interactionComponent == None
      ensures activePoint == old(activePoint) && hovered == old(hovered) && dragged == old(dragged)
      ensures pathIndices == old(pathIndices) && fullscreenComponent == old(fullscreenComponent)
      ensures cutFilter == old(cutFilter) && theme == old(theme)
    {
      interactionPoint := None;
      interactionComponent := None;
    }

    /** `toggle_fullscreen`: the component when nothing is full screen, nothing otherwise. */
    method ToggleFullscreen(component: Component)
      modifies this
      ensures fullscreenComponent == Toggled(old(fullscreenComponent), component)
      ensures activePoint == old(activePoint) && interactionPoint == old(interactionPoint)
      ensures interactionComponent == old(interactionComponent) && hovered == old(hovered) && dragged == old(dragged)
      ensures pathIndices == old(pathIndices) && cutFilter == old(cutFilter) && theme == old(theme)
    {
      if fullscreenComponent.Some? {
        fullscreenComponent := None;
      } else {
        fullscreenComponent := Some(component);
      }
    }

    /** `close_fullscreen`. */
    method CloseFullscreen()
      modifies this
      ensures fullscreenComponent == None
      ensures activePoint == old(activePoint) && interactionPoint == old(interactionPoint)
      ensures interactionComponent == old(interactionComponent) && hovered == old(hovered) && dragged == old(dragged)
      ensures pathIndices == old(pathIndices) && cutFilter == old(cutFilter) && theme == old(theme)
    {
      fullscreenComponent := None;
    }
  }

  /** The full-screen component after a toggle with `component`. */
  function Toggled(current: Option<Component>, component: Component): Option<Component> {
    if current.Some? then None else Some(component)
  }

  /** Toggling from nothing shows the component, toggling again (with any component) closes it; a toggle always changes whether something is full screen. */
  lemma ToggleTwice(c1: Component, c2: Component, current: Option<Component>)
    ensures Toggled(None, c1) == Some(c1)
    ensures Toggled(Toggled(None, c1), c2) == None
    ensures Toggled(current, c1).None? <==> current.Some?
  {
  }
}
