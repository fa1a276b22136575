/**
 * The multi-excitation state of the `pxu` crate: a list of points that are
 * moved together, each point after the first anchored to its neighbour.
 */
module StateModel {
  import opened Complex
  import opened Wrappers
  import opened Kinematics
  import opened CutModel
  import opened PointModel

  /** A crossing reported along a move: its parameter on the move and the cuts crossed there. */
  datatype Crossing = Crossing(t: real, cuts: seq<Cut>)

  /**
   * `Contours::get_crossed_cuts` for the current contours: the crossings met
   * when the point is moved in the plane towards the value, in order.
   */
  type CrossedCuts = (Point, Component, C) -> seq<Crossing>

  /**
   * A per-point update: the new point, or None when the move is refused.
   * The state is always driven by `Point::update`, given as a function value
   * so that the state's reasoning does not look inside it.
   */
  type Updater = (Point, Component, C, seq<Cut>) -> Option<Point>

  /** `upd` is `Point::update` for the kinematics `kin`. */
  ghost predicate IsPointUpdate(upd: Updater, kin: Kin) {
    forall pt, comp, value, cuts {:trigger UpdateResult(pt, comp, value, cuts, kin)} ::
      upd(pt, comp, value, cuts) == UpdateResult(pt, comp, value, cuts, kin)
  }

  /** The point after an update whose success is ignored. */
  function StepTo(pt: Point, comp: Component, value: C, kin: Kin): Point {
    var r := UpdateResult(pt, comp, value, [], kin);
    if r.Some? then r.value else pt
  }

  /** The point after n updates in the x+ plane towards the same value. */
  function StepsTo(pt: Point, value: C, n: nat, kin: Kin): Point {
    if n == 0 then pt else StepTo(StepsTo(pt, value, n - 1, kin), Xp, value, kin)
  }

  /** A new point is made from a copy of its predecessor, moved four times towards the predecessor's x-. */
  function Derive(prev: Point, kin: Kin): Point {
    StepsTo(prev, prev.xm, 4, kin)
  }

  /** The u value aimed at by one step of `State::new`: u0, or a quarter of the way towards it. */
  function UTarget(pt: Point, u0: real): (u: real)
    ensures Abs(u - pt.u.re) <= 0.25
    ensures Abs(u0 - pt.u.re) <= 0.25 ==> u == u0
    ensures Abs(u0 - pt.u.re) > 0.25 ==> Abs(u0 - u) == Abs(u0 - pt.u.re) - 0.25
  {
    var du := u0 - pt.u.re;
    pt.u.re + (if du >= 0.0 then (if du < 0.25 then du else 0.25) else -(if -du < 0.25 then -du else 0.25))
  }

  /** The first point of `State::new` is close enough to u0 to stop stepping. */
  predicate NearU(pt: Point, u0: real) {
    Abs(u0 - pt.u.re) < 0.01
  }

  /** One step of the first point towards u0 in the u plane; a refused move keeps the point. */
  function StepU(pt: Point, u0: real, kin: Kin): Point {
    StepTo(pt, U, C(UTarget(pt, u0), pt.u.im), kin)
  }

  /** n steps towards u0, without stopping early. */
  function StepsU(pt: Point, u0: real, n: nat, kin: Kin): Point
    decreases n
  {
    if n == 0 then pt else StepsU(StepU(pt, u0, kin), u0, n - 1, kin)
  }

  /** At most n steps towards u0, stopping after the first step that ends near u0. */
  function ApproachU(pt: Point, u0: real, n: nat, kin: Kin): Point
    decreases n
  {
    if n == 0 then pt
    else
      var q := StepU(pt, u0, kin);
      if NearU(q, u0) then q else ApproachU(q, u0, n - 1, kin)
  }

  /** The number of steps `State::new` allows: twice the number of quarters between u and u0. */
  function MaxUSteps(pt: Point, u0: real): (n: nat)
    ensures Abs(u0 - pt.u.re) < 0.25 ==> n == 0
  {
    2 * (Abs(u0 - pt.u.re) / 0.25).Floor
  }

  /** If some step ends near u0, the approach stops near u0. */
  lemma {:induction false} ApproachUNear(pt: Point, u0: real, n: nat, k: nat, kin: Kin)
    requires 1 <= k <= n
    requires NearU(StepsU(pt, u0, k, kin), u0)
    ensures NearU(ApproachU(pt, u0, n, kin), u0)
    decreases k
  {
    var q := StepU(pt, u0, kin);
    if !NearU(q, u0) {
      assert StepsU(pt, u0, 1, kin) == q;
      ApproachUNear(q, u0, n - 1, k - 1, kin);
    }
  }

  /** If no step ends near u0, the approach takes all n steps. */
  lemma {:induction false} ApproachUFar(pt: Point, u0: real, n: nat, kin: Kin)
    requires forall k :: 1 <= k <= n ==> !NearU(StepsU(pt, u0, k, kin), u0)
    ensures ApproachU(pt, u0, n, kin) == StepsU(pt, u0, n, kin)
    decreases n
  {
    if n > 0 {
      var q := StepU(pt, u0, kin);
      assert StepsU(pt, u0, 1, kin) == q;
      forall k | 1 <= k <= n - 1
        ensures !NearU(StepsU(q, u0, k, kin), u0)
      {
        assert StepsU(pt, u0, k + 1, kin) == StepsU(q, u0, k, kin);
      }
      ApproachUFar(q, u0, n - 1, kin);
    }
  }

  /** The loop of `State::new` that steps the first point in u towards u0. */
  method ApproachFirst(start: Point, u0: real, kin: Kin) returns (pt: Point)
    ensures pt == ApproachU(start, u0, MaxUSteps(start, u0), kin)
  {
    pt := start;
    var maxSteps := MaxUSteps(start, u0);
    var step := 0;
    while step < maxSteps
      invariant 0 <= step <= maxSteps
      invariant ApproachU(start, u0, maxSteps, kin) == ApproachU(pt, u0, maxSteps - step, kin)
      decreases maxSteps - step
    {
      var du := u0 - pt.u.re;
      var u := pt.u.re + (if du >= 0.0 then (if du < 0.25 then du else 0.25)
                          else -(if -du < 0.25 then -du else 0.25));
      assert u == UTarget(pt, u0);
      var _, q := PointModel.Update(pt, U, C(u, pt.u.im), [], kin);
      assert q == StepU(pt, u0, kin);
      pt := q;
      if Abs(u0 - pt.u.re) < 0.01 {
        break;
      }
      step := step + 1;
    }
  }

  /** The loop of `State::new` that derives a point from a copy of its predecessor. */
  method DerivePoint(prev: Point, kin: Kin) returns (q: Point)
    ensures q == Derive(prev, kin)
  {
    q := prev;
    var xm := prev.xm;
    for s := 0 to 4
      invariant q == StepsTo(prev, xm, s, kin)
    {
      var _, q' := PointModel.Update(q, Xp, xm, [], kin);
      q := q';
    }
  }

  /** The next value aimed at: midway between the first two crossings when there are at least two. */
  function NextValue(current: C, final: C, cs: seq<Crossing>): (next: C)
    ensures |cs| <= 1 ==> next == final
    ensures |cs| > 1 ==> exists t: real :: next == Add(current, Scale(t, Sub(final, current))) &&
                                           2.0 * t == cs[0].t + cs[1].t
  {
    if |cs| > 1 then
      var t := (cs[0].t + cs[1].t) / 2.0;
      Add(current, Scale(t, Sub(final, current)))
    else final
  }

  /**
   * `State::update_point` with at most `fuel` steps: the point is moved step
   * by step across the crossings until the step reaches the final value.
   * The steps already taken remain when a later one fails.
   */
  function UpdatePointSpec(pt: Point, comp: Component, final: C, crossed: CrossedCuts, upd: Updater, fuel: nat): (bool, Point)
    decreases fuel
  {
    if fuel == 0 then (false, pt)
    else
      var cs := crossed(pt, comp, final);
      var next := NextValue(Get(pt, comp), final, cs);
      var r := upd(pt, comp, next, if cs == [] then [] else cs[0].cuts);
      if r.None? then (false, pt)
      else if next == final then (true, r.value)
      else UpdatePointSpec(r.value, comp, final, crossed, upd, fuel - 1)
  }

  /** A successful move in the p plane ends exactly at the final value. */
  lemma {:induction false} UpdatePointPReachesFinal(pt: Point, final: C, crossed: CrossedCuts, kin: Kin, upd: Updater, fuel: nat)
    requires IsPointUpdate(upd, kin)
    ensures UpdatePointSpec(pt, P, final, crossed, upd, fuel).0 ==> UpdatePointSpec(pt, P, final, crossed, upd, fuel).1.p == final
    decreases fuel
  {
    if fuel > 0 {
      var cs := crossed(pt, P, final);
      var next := NextValue(Get(pt, P), final, cs);
      var cuts := if cs == [] then [] else cs[0].cuts;
      UpdateResultSheet(pt, P, next, cuts, kin);
      var r := UpdateResult(pt, P, next, cuts, kin);
      if r.Some? && next != final {
        UpdatePointPReachesFinal(r.value, final, crossed, kin, upd, fuel - 1);
      }
    }
  }

  /** With no crossing on the way, the move is a single update straight to the final value. */
  lemma UpdatePointWithoutCrossings(pt: Point, comp: Component, final: C, crossed: CrossedCuts, kin: Kin, upd: Updater, fuel: nat)
    requires IsPointUpdate(upd, kin)
    requires fuel > 0 && crossed(pt, comp, final) == []
    ensures var r := UpdateResult(pt, comp, final, [], kin);
      UpdatePointSpec(pt, comp, final, crossed, upd, fuel) == (if r.Some? then (true, r.value) else (false, pt))
  {
  }

  /** `State::update_point`. */
  method UpdatePoint(pt: Point, comp: Component, final: C, crossed: CrossedCuts, kin: Kin, ghost upd: Updater, fuel: nat)
    returns (ok: bool, r: Point)
    requires IsPointUpdate(upd, kin)
    ensures (ok, r) == UpdatePointSpec(pt, comp, final, crossed, upd, fuel)
  {
    r := pt;
    var f := fuel;
    while f > 0
      invariant UpdatePointSpec(pt, comp, final, crossed, upd, fuel) == UpdatePointSpec(r, comp, final, crossed, upd, f)
    {
      var current := Get(r, comp);
      var cs := crossed(r, comp, final);
      var next := NextValue(current, final, cs);
      var updated: bool;
      var q: Point;
      if cs == [] {
        updated, q := Update(r, comp, next, [], kin);
      } else {
        updated, q := Update(r, comp, next, cs[0].cuts, kin);
      }
      if !updated {
        return false, r;
      }
      r := q;
      if next == final {
        return true, r;
      }
      f := f - 1;
    }
    return false, r;
  }

  /** The x- of a point on its own sheet: the x+ its successor is anchored to. */
  function AnchorForNext(prev: Point, kin: Kin): C { kin.xmOnSheet(prev.p, prev.sheetData) }

  /** The x+ of a point on its own sheet: the x- its predecessor is anchored to. */
  function AnchorForPrev(next: Point, kin: Kin): C { kin.xpOnSheet(next.p, next.sheetData) }

  /** Points lo..hi-1 re-anchored in ascending order, each to its already moved predecessor. */
  function Forward(pts: seq<Point>, lo: nat, hi: nat, crossed: CrossedCuts, kin: Kin, upd: Updater, fuel: nat): (res: (bool, seq<Point>))
    requires 1 <= lo <= hi <= |pts|
    ensures |res.1| == |pts|
    ensures forall j :: 0 <= j < lo || hi <= j < |pts| ==> res.1[j] == pts[j]
    decreases hi
  {
    if hi == lo then (true, pts)
    else
      var prev := Forward(pts, lo, hi - 1, crossed, kin, upd, fuel);
      var step := UpdatePointSpec(prev.1[hi - 1], Xp, AnchorForNext(prev.1[hi - 2], kin), crossed, upd, fuel);
      (prev.0 && step.0, prev.1[hi - 1 := step.1])
  }

  /** Points hi-1 down to lo re-anchored in descending order, each to its already moved successor. */
  function Backward(pts: seq<Point>, lo: nat, hi: nat, crossed: CrossedCuts, kin: Kin, upd: Updater, fuel: nat): (res: (bool, seq<Point>))
    requires lo <= hi < |pts|
    ensures |res.1| == |pts|
    ensures forall j :: 0 <= j < lo || hi <= j < |pts| ==> res.1[j] == pts[j]
    decreases hi - lo
  {
    if hi == lo then (true, pts)
    else
      var prev := Backward(pts, lo + 1, hi, crossed, kin, upd, fuel);
      var step := UpdatePointSpec(prev.1[lo], Xm, AnchorForPrev(prev.1[lo + 1], kin), crossed, upd, fuel);
      (prev.0 && step.0, prev.1[lo := step.1])
  }

  /** The whole of `State::update_points` on the list of points. */
  function UpdatePointsSpec(pts: seq<Point>, unlocked: bool, active: nat, comp: Component, value: C,
                            crossed: CrossedCuts, kin: Kin, upd: Updater, fuel: nat): (res: (bool, seq<Point>))
    requires active < |pts|
    ensures |res.1| == |pts|
  {
    var first := UpdatePointSpec(pts[active], comp, value, crossed, upd, fuel);
    var moved := pts[active := first.1];
    if unlocked then (first.0, moved)
    else
      var up := Forward(moved, active + 1, |pts|, crossed, kin, upd, fuel);
      var down := Backward(up.1, 0, active, crossed, kin, upd, fuel);
      (first.0 && up.0 && down.0, down.1)
  }

  /** Whether the re-anchoring of point i succeeded in the ascending pass that starts at lo. */
  predicate ForwardStepOk(pts: seq<Point>, lo: nat, i: nat, crossed: CrossedCuts, kin: Kin, upd: Updater, fuel: nat)
    requires 1 <= lo <= i < |pts|
  {
    var before := Forward(pts, lo, i, crossed, kin, upd, fuel).1;
    UpdatePointSpec(before[i], Xp, AnchorForNext(before[i - 1], kin), crossed, upd, fuel).0
  }

  /** The ascending pass succeeds exactly when each of its re-anchorings does. */
  lemma {:induction false} ForwardConjunction(pts: seq<Point>, lo: nat, hi: nat, crossed: CrossedCuts, kin: Kin, upd: Updater, fuel: nat)
    requires 1 <= lo <= hi <= |pts|
    ensures Forward(pts, lo, hi, crossed, kin, upd, fuel).0 <==>
      forall i :: lo <= i < hi ==> ForwardStepOk(pts, lo, i, crossed, kin, upd, fuel)
    decreases hi
  {
    if hi > lo {
      ForwardConjunction(pts, lo, hi - 1, crossed, kin, upd, fuel);
      ForwardUnfold(pts, lo, hi, crossed, kin, upd, fuel);
    }
  }

  /** One more point of the ascending pass, stated on the pass so far and the result of the new re-anchoring. */
  lemma ForwardStepValue(pts: seq<Point>, lo: nat, i: nat, prevOk: bool, prevPts: seq<Point>, ok: bool, q: Point,
                         crossed: CrossedCuts, kin: Kin, upd: Updater, fuel: nat)
    requires 1 <= lo <= i < |pts|
    requires (prevOk, prevPts) == Forward(pts, lo, i, crossed, kin, upd, fuel)
    requires (ok, q) == UpdatePointSpec(prevPts[i], Xp, AnchorForNext(prevPts[i - 1], kin), crossed, upd, fuel)
    ensures Forward(pts, lo, i + 1, crossed, kin, upd, fuel) == (prevOk && ok, prevPts[i := q])
  {
  }

  /** One more point of the ascending pass. */
  lemma ForwardUnfold(pts: seq<Point>, lo: nat, hi: nat, crossed: CrossedCuts, kin: Kin, upd: Updater, fuel: nat)
    requires 1 <= lo < hi <= |pts|
    ensures Forward(pts, lo, hi, crossed, kin, upd, fuel).0 <==>
      Forward(pts, lo, hi - 1, crossed, kin, upd, fuel).0 && ForwardStepOk(pts, lo, hi - 1, crossed, kin, upd, fuel)
  {
  }

  /** Whether the re-anchoring of point i succeeded in the descending pass that starts below hi. */
  predicate BackwardStepOk(pts: seq<Point>, i: nat, hi: nat, crossed: CrossedCuts, kin: Kin, upd: Updater, fuel: nat)
    requires i < hi < |pts|
  {
    var before := Backward(pts, i + 1, hi, crossed, kin, upd, fuel).1;
    UpdatePointSpec(before[i], Xm, AnchorForPrev(before[i + 1], kin), crossed, upd, fuel).0
  }

  /** The descending pass succeeds exactly when each of its re-anchorings does. */
  lemma {:induction false} BackwardConjunction(pts: seq<Point>, lo: nat, hi: nat, crossed: CrossedCuts, kin: Kin, upd: Updater, fuel: nat)
    requires lo <= hi < |pts|
    ensures Backward(pts, lo, hi, crossed, kin, upd, fuel).0 <==>
      forall i :: lo <= i < hi ==> BackwardStepOk(pts, i, hi, crossed, kin, upd, fuel)
    decreases hi - lo
  {
    if hi > lo {
      BackwardConjunction(pts, lo + 1, hi, crossed, kin, upd, fuel);
      BackwardUnfold(pts, lo, hi, crossed, kin, upd, fuel);
      if Backward(pts, lo, hi, crossed, kin, upd, fuel).0 {
        forall i | lo <= i < hi
          ensures BackwardStepOk(pts, i, hi, crossed, kin, upd, fuel)
        {
        }
      } else if BackwardStepOk(pts, lo, hi, crossed, kin, upd, fuel) {
        var i :| lo + 1 <= i < hi && !BackwardStepOk(pts, i, hi, crossed, kin, upd, fuel);
      }
    }
  }

  /** One more point of the descending pass. */
  lemma BackwardUnfold(pts: seq<Point>, lo: nat, hi: nat, crossed: CrossedCuts, kin: Kin, upd: Updater, fuel: nat)
    requires lo < hi < |pts|
    ensures Backward(pts, lo, hi, crossed, kin, upd, fuel).0 <==>
      Backward(pts, lo + 1, hi, crossed, kin, upd, fuel).0 && BackwardStepOk(pts, lo, hi, crossed, kin, upd, fuel)
  {
  }

  /** Every re-anchoring of the ascending pass over lo..hi-1 succeeded. */
  predicate AllForwardOk(pts: seq<Point>, lo: nat, hi: nat, crossed: CrossedCuts, kin: Kin, upd: Updater, fuel: nat)
    requires 1 <= lo <= hi <= |pts|
  {
    forall i :: lo <= i < hi ==> ForwardStepOk(pts, lo, i, crossed, kin, upd, fuel)
  }

  /** Every re-anchoring of the descending pass over hi-1 down to lo succeeded. */
  predicate AllBackwardOk(pts: seq<Point>, lo: nat, hi: nat, crossed: CrossedCuts, kin: Kin, upd: Updater, fuel: nat)
    requires lo <= hi < |pts|
  {
    forall i :: lo <= i < hi ==> BackwardStepOk(pts, i, hi, crossed, kin, upd, fuel)
  }

  /**
   * `update_points` reports success exactly when the move of the active
   * point succeeded and, for a locked state, every re-anchoring of the
   * ascending pass and every re-anchoring of the descending pass did.
   */
  lemma UpdatePointsConjunction(pts: seq<Point>, unlocked: bool, active: nat, comp: Component, value: C,
                                crossed: CrossedCuts, kin: Kin, upd: Updater, fuel: nat)
    requires active < |pts|
    ensures var first := UpdatePointSpec(pts[active], comp, value, crossed, upd, fuel);
      var moved := pts[active := first.1];
      var up := Forward(moved, active + 1, |pts|, crossed, kin, upd, fuel);
      UpdatePointsSpec(pts, unlocked, active, comp, value, crossed, kin, upd, fuel).0 <==>
        first.0 &&
        (!unlocked ==> AllForwardOk(moved, active + 1, |pts|, crossed, kin, upd, fuel)) &&
        (!unlocked ==> AllBackwardOk(up.1, 0, active, crossed, kin, upd, fuel))
  {
    var first := UpdatePointSpec(pts[active], comp, value, crossed, upd, fuel);
    var moved := pts[active := first.1];
    ForwardConjunction(moved, active + 1, |pts|, crossed, kin, upd, fuel);
    var up := Forward(moved, active + 1, |pts|, crossed, kin, upd, fuel);
    BackwardConjunction(up.1, 0, active, crossed, kin, upd, fuel);
  }

  /**
   * The active point ends as moved by the requested update; when the state
   * is unlocked no other point changes.
   */
  lemma UpdatePointsMovesActive(pts: seq<Point>, unlocked: bool, active: nat, comp: Component, value: C,
                                crossed: CrossedCuts, kin: Kin, upd: Updater, fuel: nat)
    requires active < |pts|
    ensures var res := UpdatePointsSpec(pts, unlocked, active, comp, value, crossed, kin, upd, fuel);
      var first := UpdatePointSpec(pts[active], comp, value, crossed, upd, fuel);
      res.1[active] == first.1 && (res.0 ==> first.0) &&
      (unlocked ==> res == (first.0, pts[active := first.1]))
  {
  }

  /** A copy of a state, as stored by paths. */
  datatype StateValue = StateValue(points: seq<Point>, unlocked: bool)

  /** `State::default`: no points, locked. */
  const DefaultState := StateValue([], false)

  /** The list of points being moved together. */
  class State {
    var points: seq<Point>
    var unlocked: bool

    /** `State::clone`: a copy of the current points and flag. */
    function Value(): (v: StateValue)
      reads this
      ensures v.points == points && v.unlocked == unlocked
    {
      StateValue(points, unlocked)
    }

    /**
     * `State::new`: m points. The first is made from p0 and stepped in u
     * towards u0 by at most a quarter per step; every later one is derived
     * from a copy of its predecessor. A new state is locked.
     */
    constructor New(m: nat, p0: C, u0: real, kin: Kin)
      requires m >= 1
      ensures |points| == m && !unlocked
      ensures points[0] == ApproachU(NewPoint(p0, kin), u0, MaxUSteps(NewPoint(p0, kin), u0), kin)
      ensures forall i :: 1 <= i < m ==> points[i] == Derive(points[i - 1], kin)
    {
      var pt := ApproachFirst(NewPoint(p0, kin), u0, kin);
      var pts := [pt];
      var i := 1;
      while i < m
        invariant 1 <= i <= m && |pts| == i && pts[0] == pt
        invariant forall j :: 1 <= j < i ==> pts[j] == Derive(pts[j - 1], kin)
      {
        var q := DerivePoint(pts[i - 1], kin);
        pts := pts + [q];
        i := i + 1;
      }
      points := pts;
      unlocked := false;
    }

    /**
     * `State::update_points`: moves the active point, then, unless the state
     * is unlocked, re-anchors the later points in ascending order and the
     * earlier ones in descending order. The result is the conjunction of
     * all the moves.
     */
    method UpdatePoints(active: nat, comp: Component, value: C, crossed: CrossedCuts, kin: Kin, ghost upd: Updater, fuel: nat)
      returns (result: bool)
      requires active < |points|
      requires IsPointUpdate(upd, kin)
      modifies this`points
      ensures (result, points) == UpdatePointsSpec(old(points), unlocked, active, comp, value, crossed, kin, upd, fuel)
    {
      var ok, q := UpdatePoint(points[active], comp, value, crossed, kin, upd, fuel);
      result := ok;
      points := points[active := q];
      if !unlocked {
        var upOk := ReanchorForward(active + 1, crossed, kin, upd, fuel);
        var downOk := ReanchorBackward(active, crossed, kin, upd, fuel);
        result := result && upOk && downOk;
      }
    }

    /** The ascending loop of `update_points`: points lo.. re-anchored to their predecessors. */
    method ReanchorForward(lo: nat, crossed: CrossedCuts, kin: Kin, ghost upd: Updater, fuel: nat) returns (result: bool)
      requires 1 <= lo <= |points|
      requires IsPointUpdate(upd, kin)
      modifies this`points
      ensures (result, points) == Forward(old(points), lo, |old(points)|, crossed, kin, upd, fuel)
    {
      ghost var pts0 := points;
      result := true;
      var i := lo;
      while i < |points|
        invariant lo <= i <= |points| == |pts0|
        invariant (result, points) == Forward(pts0, lo, i, crossed, kin, upd, fuel)
      {
        var target := AnchorForNext(points[i - 1], kin);
        var ok, q := UpdatePoint(points[i], Xp, target, crossed, kin, upd, fuel);
        ForwardStepValue(pts0, lo, i, result, points, ok, q, crossed, kin, upd, fuel);
        result := result && ok;
        points := points[i := q];
        i := i + 1;
      }
    }

    /** The descending loop of `update_points`: points hi-1 down to 0 re-anchored to their successors. */
    method ReanchorBackward(hi: nat, crossed: CrossedCuts, kin: Kin, ghost upd: Updater, fuel: nat) returns (result: bool)
      requires hi < |points|
      requires IsPointUpdate(upd, kin)
      modifies this`points
      ensures (result, points) == Backward(old(points), 0, hi, crossed, kin, upd, fuel)
    {
      ghost var pts0 := points;
      result := true;
      var j := hi;
      while j > 0
        invariant 0 <= j <= hi
        invariant |points| == |pts0|
        invariant (result, points) == Backward(pts0, j, hi, crossed, kin, upd, fuel)
      {
        j := j - 1;
        var target := AnchorForPrev(points[j + 1], kin);
        var ok, q := UpdatePoint(points[j], Xm, target, crossed, kin, upd, fuel);
        assert Backward(pts0, j, hi, crossed, kin, upd, fuel) == (result && ok, points[j := q]);
        result := result && ok;
        points := points[j := q];
      }
    }

    /** `State::update`. */
    method Update(active: nat, comp: Component, value: C, crossed: CrossedCuts, kin: Kin, ghost upd: Updater, fuel: nat)
      returns (result: bool)
      requires active < |points|
      requires IsPointUpdate(upd, kin)
      modifies this`points
      ensures (result, points) == UpdatePointsSpec(old(points), unlocked, active, comp, value, crossed, kin, upd, fuel)
    {
      result := UpdatePoints(active, comp, value, crossed, kin, upd, fuel);
    }

    /** `State::p`: the total momentum. */
    function P(): C
      reads this
    {
      SumP(points)
    }

    /** `State::en`: the total energy. */
    function En(kin: Kin): C
      reads this
    {
      SumEn(points, kin)
    }
  }

  function SumP(pts: seq<Point>): C {
    if pts == [] then C(0.0, 0.0) else Add(SumP(pts[..|pts| - 1]), pts[|pts| - 1].p)
  }

  function SumEn(pts: seq<Point>, kin: Kin): C {
    if pts == [] then C(0.0, 0.0) else Add(SumEn(pts[..|pts| - 1], kin), kin.en(pts[|pts| - 1]))
  }

  /** The total momentum is additive over a split of the points. */
  lemma {:induction false} SumPAdditive(a: seq<Point>, b: seq<Point>)
    ensures SumP(a + b) == Add(SumP(a), SumP(b))
    decreases |b|
  {
    if b == [] {
      assert a + b == a;
    } else {
      var b' := b[..|b| - 1];
      var ab := a + b;
      assert ab[..|ab| - 1] == a + b';
      assert ab[|ab| - 1] == b[|b| - 1];
      SumPAdditive(a, b');
      var x, y, z := SumP(a), SumP(b'), b[|b| - 1].p;
      calc {
        SumP(ab);
        Add(SumP(a + b'), z);
        Add(Add(x, y), z);
        Add(x, Add(y, z));
        Add(x, SumP(b));
      }
    }
  }

  /** The total energy is additive over a split of the points. */
  lemma {:induction false} SumEnAdditive(a: seq<Point>, b: seq<Point>, kin: Kin)
    ensures SumEn(a + b, kin) == Add(SumEn(a, kin), SumEn(b, kin))
    decreases |b|
  {
    if b == [] {
      assert a + b == a;
    } else {
      var b' := b[..|b| - 1];
      var ab := a + b;
      assert ab[..|ab| - 1] == a + b';
      assert ab[|ab| - 1] == b[|b| - 1];
      SumEnAdditive(a, b', kin);
      var x, y, z := SumEn(a, kin), SumEn(b', kin), kin.en(b[|b| - 1]);
      calc {
        SumEn(ab, kin);
        Add(SumEn(a + b', kin), z);
        Add(Add(x, y), z);
        Add(x, Add(y, z));
        Add(x, SumEn(b, kin));
      }
    }
  }

  /** Changing one point changes the total momentum by the change of its p. */
  lemma {:induction false} SumPUpdate(pts: seq<Point>, i: nat, q: Point)
    requires i < |pts|
    ensures SumP(pts[i := q]) == Add(SumP(pts), Sub(q.p, pts[i].p))
    decreases |pts|
  {
    var n := |pts| - 1;
    if i == n {
      assert pts[i := q][..n] == pts[..n];
    } else {
      assert pts[i := q][..n] == pts[..n][i := q];
      SumPUpdate(pts[..n], i, q);
    }
  }
}
