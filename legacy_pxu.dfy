/**
 * The root crate's `src/pxu.rs`, an older version of the point tracker.
 * Its sheet record has one log branch, a log-branch sum and the energy
 * branch; its cuts have several paths and are cached per set of coupling
 * constants, like its grid lines.
 */
module LegacyPxu {
  import opened Complex
  import opened Wrappers
  import opened Kinematics
  import ContourCuts
  import CutModel

  /** The `SheetData` of the root crate. */
  datatype Sheet = Sheet(logBranch: int, logBranchSum: int, eBranch: int)

  /** The u map shifts by (log_branch + log_branch_sum) k i / h; that sum is even on every reachable sheet. */
  predicate EvenBranch(sd: Sheet) {
    (sd.logBranch + sd.logBranchSum) % 2 == 0
  }

  /** The cut types of the root crate: a log cut carries the step it gives the log branch. */
  datatype CutType = U(comp: Component) | LogX(comp: Component, branch: int) | E | DebugPath

  /** A point of the root crate. */
  datatype PointData = PointData(p: C, xp: C, xm: C, u: C, consts: Consts, sheet: Sheet)

  function Get(v: PointData, c: Component): C {
    match c
    case P => v.p
    case Xp => v.xp
    case Xm => v.xm
    case U => v.u
  }

  /** Visibility conditions of the root crate. */
  datatype Condition =
    | ImXp(sign: int)
    | ImXm(sign: int)
    | LogBranch(branch: int)
    | LogBranchGT(branch: int)
    | LogBranchLE(branch: int)
  {
    predicate Check(pt: PointData) {
      match this
      case ImXp(s) => Signum(pt.xp.im) == IntSignum(s)
      case ImXm(s) => Signum(pt.xm.im) == IntSignum(s)
      case LogBranch(b) => b == pt.sheet.logBranch
      case LogBranchGT(b) => pt.sheet.logBranch > b
      case LogBranchLE(b) => pt.sheet.logBranch <= b
    }
  }

  /**
   * The log-branch conditions partition the branches: above b or at most b,
   * and exactly b when at most b but not at most b - 1. The sign conditions
   * with signs 1 and -1 are complementary, and sign 0 never holds.
   */
  lemma ConditionRelations(pt: PointData, b: int)
    ensures LogBranchGT(b).Check(pt) <==> !LogBranchLE(b).Check(pt)
    ensures LogBranch(b).Check(pt) <==> LogBranchLE(b).Check(pt) && !LogBranchLE(b - 1).Check(pt)
    ensures ImXp(1).Check(pt) <==> !ImXp(-1).Check(pt)
    ensures ImXm(1).Check(pt) <==> !ImXm(-1).Check(pt)
    ensures !ImXp(0).Check(pt) && !ImXm(0).Check(pt)
  {
  }

  /** A cut of the root crate. */
  datatype Cut = Cut(component: Component, paths: seq<seq<C>>, branchPoints: seq<C>, typ: CutType, visibility: seq<Condition>)

  /** `Cut::new`: a cut without visibility conditions. */
  function NewCut(component: Component, paths: seq<seq<C>>, branchPoints: seq<C>, typ: CutType): (r: Cut)
    ensures r.visibility == [] && IsVisibleEverywhere(r)
  {
    Cut(component, paths, branchPoints, typ, [])
  }

  predicate AllHold(conds: seq<Condition>, pt: PointData) {
    forall i :: 0 <= i < |conds| ==> conds[i].Check(pt)
  }

  /** `Cut::is_visible`. */
  predicate IsVisible(cut: Cut, pt: PointData) {
    AllHold(cut.visibility, pt)
  }

  ghost predicate IsVisibleEverywhere(cut: Cut) {
    forall pt :: IsVisible(cut, pt)
  }

  /** The visibility builders (`im_xp_positive`, `log_branch_gt`, ...) each add one condition. */
  function Restrict(cut: Cut, cond: Condition): (r: Cut)
    ensures r.visibility == cut.visibility + [cond]
    ensures r.(visibility := cut.visibility) == cut
  {
    cut.(visibility := cut.visibility + [cond])
  }

  function ImXpPositive(cut: Cut): Cut { Restrict(cut, ImXp(1)) }
  function ImXpNegative(cut: Cut): Cut { Restrict(cut, ImXp(-1)) }
  function ImXmPositive(cut: Cut): Cut { Restrict(cut, ImXm(1)) }
  function ImXmNegative(cut: Cut): Cut { Restrict(cut, ImXm(-1)) }
  function WithLogBranch(cut: Cut, b: int): Cut { Restrict(cut, LogBranch(b)) }
  function WithLogBranchGT(cut: Cut, b: int): Cut { Restrict(cut, LogBranchGT(b)) }
  function WithLogBranchLE(cut: Cut, b: int): Cut { Restrict(cut, LogBranchLE(b)) }

  /** A builder narrows visibility by exactly its condition. */
  lemma RestrictVisibility(cut: Cut, cond: Condition, pt: PointData)
    ensures IsVisible(Restrict(cut, cond), pt) <==> IsVisible(cut, pt) && cond.Check(pt)
  {
    var vs := Restrict(cut, cond).visibility;
    if IsVisible(cut, pt) && cond.Check(pt) {
      forall i | 0 <= i < |vs|
        ensures vs[i].Check(pt)
      {
        if i < |cut.visibility| {
          assert vs[i] == cut.visibility[i];
        }
      }
    }
    if IsVisible(Restrict(cut, cond), pt) {
      assert vs[|cut.visibility|] == cond;
      forall i | 0 <= i < |cut.visibility|
        ensures cut.visibility[i].Check(pt)
      {
        assert vs[i] == cut.visibility[i];
      }
    }
  }

  /** The point at which a move first meets a cut, as `Cut::intersection` returns it. */
  function HitPoint(cut: Cut, p1: C, p2: C): Option<C> {
    match ContourCuts.FirstPathHit(cut.paths, p1, p2, 0)
    case Some(h) => Some(h.hit.point)
    case None => None
  }

  /**
   * `Cut::intersection`: the paths in order, the windows of each in order;
   * the first window the move crosses gives the point.
   */
  method Intersection(cut: Cut, p1: C, p2: C) returns (x: Option<C>)
    ensures x == HitPoint(cut, p1, p2)
    ensures x.Some? <==> exists k :: 0 <= k < |cut.paths| && CutModel.FirstHit(cut.paths[k], p1, p2, 0).Some?
  {
    ContourCuts.FirstPathHitIsFirst(cut.paths, p1, p2, 0);
    var h := ContourCuts.PathsIntersection(cut.paths, p1, p2);
    x := if h.Some? then Some(h.value.hit.point) else None;
  }

  /** The cuts that `Cuts::crossed` reports: in the plane, visible, and met by the move. */
  predicate IsCrossed(c: Cut, pt: PointData, comp: Component, value: C) {
    c.component == comp && IsVisible(c, pt) && HitPoint(c, Get(pt, comp), value).Some?
  }

  /** `Cuts::visible`, as a list in cache order. */
  function VisibleOf(cuts: seq<Cut>, pt: PointData, comp: Component): (r: seq<Cut>)
    ensures forall c :: c in r <==> c in cuts && c.component == comp && IsVisible(c, pt)
    ensures |r| <= |cuts|
  {
    if cuts == [] then []
    else
      var c := cuts[|cuts| - 1];
      VisibleOf(cuts[..|cuts| - 1], pt, comp) + (if c.component == comp && IsVisible(c, pt) then [c] else [])
  }

  /** `Cuts::crossed`, as a list in cache order. */
  function CrossedOf(cuts: seq<Cut>, pt: PointData, comp: Component, value: C): (r: seq<Cut>)
    ensures forall c :: c in r <==> c in cuts && IsCrossed(c, pt, comp, value)
    ensures |r| <= |cuts|
  {
    if cuts == [] then []
    else
      var c := cuts[|cuts| - 1];
      CrossedOf(cuts[..|cuts| - 1], pt, comp, value) + (if IsCrossed(c, pt, comp, value) then [c] else [])
  }

  /** A crossed cut is a visible one. */
  lemma CrossedAreVisible(cuts: seq<Cut>, pt: PointData, comp: Component, value: C)
    ensures forall c :: c in CrossedOf(cuts, pt, comp, value) ==> c in VisibleOf(cuts, pt, comp)
  {
  }

  /** The cuts `Cut::get` produces for the p ranges -1, 0 and 1. */
  function AllCuts(cutsOf: (int, Consts) -> seq<Cut>, consts: Consts): seq<Cut> {
    cutsOf(-1, consts) + cutsOf(0, consts) + cutsOf(1, consts)
  }

  /** `Cuts::populate`: forget the cuts of other constants, and generate them when there are none. */
  function Populated(cuts: seq<Cut>, consts: Option<Consts>, pt: PointData, cutsOf: (int, Consts) -> seq<Cut>): seq<Cut> {
    var kept := if consts.Some? && consts.value != pt.consts then [] else cuts;
    if kept == [] then AllCuts(cutsOf, pt.consts) else kept
  }

  /** The cache holds nothing before any constants are seen, and afterwards the cuts of the constants it saw. */
  predicate CutsCacheValid(cuts: seq<Cut>, consts: Option<Consts>, cutsOf: (int, Consts) -> seq<Cut>) {
    if consts.None? then cuts == [] else cuts == AllCuts(cutsOf, consts.value)
  }

  /** After populating a valid cache, it holds exactly the cuts of the point's constants. */
  lemma PopulatedFresh(cuts: seq<Cut>, consts: Option<Consts>, pt: PointData, cutsOf: (int, Consts) -> seq<Cut>)
    requires CutsCacheValid(cuts, consts, cutsOf)
    ensures Populated(cuts, consts, pt, cutsOf) == AllCuts(cutsOf, pt.consts)
    ensures CutsCacheValid(Populated(cuts, consts, pt, cutsOf), Some(pt.consts), cutsOf)
  {
  }

  /** The loop of `Cuts::visible` over the cached cuts. */
  method FilterVisible(cuts: seq<Cut>, pt: PointData, comp: Component) returns (r: seq<Cut>)
    ensures r == VisibleOf(cuts, pt, comp)
  {
    r := [];
    for i := 0 to |cuts|
      invariant r == VisibleOf(cuts[..i], pt, comp)
    {
      assert cuts[..i + 1][..i] == cuts[..i];
      if cuts[i].component == comp && IsVisible(cuts[i], pt) {
        r := r + [cuts[i]];
      }
    }
    assert cuts[..|cuts|] == cuts;
  }

  /** The loop of `Cuts::crossed`: the visible cuts of the plane that the move intersects. */
  method FilterCrossed(cuts: seq<Cut>, pt: PointData, comp: Component, value: C) returns (r: seq<Cut>)
    ensures r == CrossedOf(cuts, pt, comp, value)
  {
    r := [];
    for i := 0 to |cuts|
      invariant r == CrossedOf(cuts[..i], pt, comp, value)
    {
      assert cuts[..i + 1][..i] == cuts[..i];
      if cuts[i].component == comp && IsVisible(cuts[i], pt) {
        var x := Intersection(cuts[i], Get(pt, comp), value);
        if x.Some? {
          r := r + [cuts[i]];
        }
      }
    }
    assert cuts[..|cuts|] == cuts;
  }

  /** The cut cache of the root crate. */
  class Cuts {
    var cuts: seq<Cut>
    var consts: Option<Consts>

    /** `Cuts::new`. */
    constructor ()
      ensures cuts == [] && consts == None
    {
      cuts := [];
      consts := None;
    }

    /** `Cuts::populate`. */
    method Populate(pt: PointData, cutsOf: (int, Consts) -> seq<Cut>)
      modifies this
      ensures cuts == Populated(old(cuts), old(consts), pt, cutsOf)
      ensures consts == Some(pt.consts)
    {
      if consts.Some? && consts.value != pt.consts {
        cuts := [];
      }
      consts := Some(pt.consts);
      if cuts == [] {
        var r := -1;
        while r <= 1
          invariant -1 <= r <= 2
          invariant consts == Some(pt.consts)
          invariant cuts == if r == -1 then [] else if r == 0 then cutsOf(-1, pt.consts)
                           else if r == 1 then cutsOf(-1, pt.consts) + cutsOf(0, pt.consts)
                           else AllCuts(cutsOf, pt.consts)
        {
          cuts := cuts + cutsOf(r, pt.consts);
          r := r + 1;
        }
      }
    }

    /** `Cuts::visible`. */
    method Visible(pt: PointData, comp: Component, cutsOf: (int, Consts) -> seq<Cut>) returns (r: seq<Cut>)
      modifies this
      ensures cuts == Populated(old(cuts), old(consts), pt, cutsOf) && consts == Some(pt.consts)
      ensures r == VisibleOf(cuts, pt, comp)
    {
      Populate(pt, cutsOf);
      r := FilterVisible(cuts, pt, comp);
    }

    /** `Cuts::crossed`. */
    method Crossed(pt: PointData, comp: Component, value: C, cutsOf: (int, Consts) -> seq<Cut>) returns (r: seq<Cut>)
      modifies this
      ensures cuts == Populated(old(cuts), old(consts), pt, cutsOf) && consts == Some(pt.consts)
      ensures r == CrossedOf(cuts, pt, comp, value)
    {
      Populate(pt, cutsOf);
      r := FilterCrossed(cuts, pt, comp, value);
    }
  }

  /** The grid lines of one log branch, per plane. */
  datatype GridLines = GridLines(p: seq<seq<C>>, x: seq<seq<C>>, u: seq<seq<C>>)

  /** `GridLines::get`: the two x planes share their lines. */
  function LinesOf(g: GridLines, comp: Component): seq<seq<C>> {
    match comp
    case P => g.p
    case Xp => g.x
    case Xm => g.x
    case U => g.u
  }

  /** `Grid::get` on the cache: dropped on new constants, then the entry of the point's log branch is made if missing. */
  function GridAfter(data: map<int, GridLines>, consts: Option<Consts>, pt: PointData,
                     newLines: (int, Consts) -> GridLines): map<int, GridLines> {
    var kept := if consts.Some? && consts.value != pt.consts then map[] else data;
    var b := pt.sheet.logBranch;
    if b in kept then kept else kept[b := newLines(b, pt.consts)]
  }

  /** Every cached entry is the one `GridLines::new` makes for its branch under the stored constants. */
  predicate GridCacheValid(data: map<int, GridLines>, consts: Option<Consts>, newLines: (int, Consts) -> GridLines) {
    (consts.None? ==> data == map[]) &&
    (consts.Some? ==> forall b :: b in data ==> data[b] == newLines(b, consts.value))
  }

  /**
   * The grid cache never serves stale lines: from a valid cache, `get`
   * returns the lines made for the point's branch and constants, and the
   * cache stays valid. Entries of other branches survive unless the
   * constants changed.
   */
  lemma GridCacheSound(data: map<int, GridLines>, consts: Option<Consts>, pt: PointData,
                       newLines: (int, Consts) -> GridLines)
    requires GridCacheValid(data, consts, newLines)
    ensures var d := GridAfter(data, consts, pt, newLines);
      pt.sheet.logBranch in d && d[pt.sheet.logBranch] == newLines(pt.sheet.logBranch, pt.consts) &&
      GridCacheValid(d, Some(pt.consts), newLines)
    ensures consts == Some(pt.consts) ==> forall b :: b in data ==> b in GridAfter(data, consts, pt, newLines)
    ensures consts.Some? && consts.value != pt.consts ==>
      GridAfter(data, consts, pt, newLines).Keys == {pt.sheet.logBranch}
  {
  }

  /** The grid-line cache of the root crate. */
  class Grid {
    var data: map<int, GridLines>
    var consts: Option<Consts>

    /** `Grid::new`. */
    constructor ()
      ensures data == map[] && consts == None
    {
      data := map[];
      consts := None;
    }

    /** `Grid::get`. */
    method Get(pt: PointData, comp: Component, newLines: (int, Consts) -> GridLines) returns (lines: seq<seq<C>>)
      modifies this
      ensures data == GridAfter(old(data), old(consts), pt, newLines) && consts == Some(pt.consts)
      ensures pt.sheet.logBranch in data && lines == LinesOf(data[pt.sheet.logBranch], comp)
    {
      if consts.Some? && consts.value != pt.consts {
        data := map[];
      }
      consts := Some(pt.consts);
      var b := pt.sheet.logBranch;
      if b !in data {
        data := data[b := newLines(b, pt.consts)];
      }
      lines := LinesOf(data[b], comp);
    }
  }

  /**
   * The numerical maps of the root crate, given rather than computed: x+,
   * x- and u on the physical sheet and through the E cut, and Newton's
   * method inverting the map of a plane (target, crossed or not, the sheet
   * the u map uses, starting guess), which may fail.
   */
  datatype Maps = Maps(
    xp: (C, Consts) -> C,
    xm: (C, Consts) -> C,
    u: (C, Consts, Sheet) -> C,
    xpCrossed: (C, Consts) -> C,
    xmCrossed: (C, Consts) -> C,
    uCrossed: (C, Consts, Sheet) -> C,
    findRoot: (Component, C, bool, Consts, Sheet, C) -> Option<C>)

  function XpOn(maps: Maps, p: C, consts: Consts, crossed: bool): C {
    if crossed then maps.xpCrossed(p, consts) else maps.xp(p, consts)
  }

  function XmOn(maps: Maps, p: C, consts: Consts, crossed: bool): C {
    if crossed then maps.xmCrossed(p, consts) else maps.xm(p, consts)
  }

  function UOn(maps: Maps, p: C, consts: Consts, crossed: bool, sd: Sheet): C {
    if crossed then maps.uCrossed(p, consts, sd) else maps.u(p, consts, sd)
  }

  /** The stored x+, x- and u are those of p on the stored sheet. */
  predicate Consistent(v: PointData, maps: Maps) {
    var crossed := v.sheet.eBranch <= 0;
    v.xp == XpOn(maps, v.p, v.consts, crossed) &&
    v.xm == XmOn(maps, v.p, v.consts, crossed) &&
    v.u == UOn(maps, v.p, v.consts, crossed, v.sheet)
  }

  /** `PxuPoint::new`: log branch floor(Re p), its parity as the log-branch sum, physical energy branch. */
  function Initial(p: C, consts: Consts, maps: Maps): (v: PointData)
    ensures v.p == p && v.consts == consts
    ensures v.sheet.logBranch == SaturateI32(p.re.Floor) && v.sheet.eBranch == 1
    ensures v.sheet.logBranchSum == 0 || v.sheet.logBranchSum == 1
    ensures EvenBranch(v.sheet)
    ensures Consistent(v, maps)
  {
    var lb := SaturateI32(p.re.Floor);
    var sd := Sheet(lb, if lb % 2 == 1 then 1 else 0, 1);
    PointData(p, maps.xp(p, consts), maps.xm(p, consts), maps.u(p, consts, sd), consts, sd)
  }

  /** The sheet after crossing a cut of the given type. */
  function CrossCut(sd: Sheet, typ: CutType): Sheet {
    match typ
    case LogX(Xp, b) => sd.(logBranch := sd.logBranch + b, logBranchSum := sd.logBranchSum + b)
    case LogX(Xm, b) => sd.(logBranch := sd.logBranch + b, logBranchSum := sd.logBranchSum - b)
    case E => sd.(eBranch := -sd.eBranch)
    case _ => sd
  }

  /** The sheet after crossing every cut of the list in order. */
  function CrossAll(sd: Sheet, cuts: seq<Cut>): Sheet {
    if cuts == [] then sd else CrossCut(CrossAll(sd, cuts[..|cuts| - 1]), cuts[|cuts| - 1].typ)
  }

  /**
   * A log cut crossed with the opposite step, or an E cut crossed again,
   * restores the sheet; u cuts change nothing; and no crossing changes the
   * parity of log_branch + log_branch_sum.
   */
  lemma CrossCutInverse(sd: Sheet, typ: CutType)
    ensures typ.LogX? ==> CrossCut(CrossCut(sd, typ), LogX(typ.comp, -typ.branch)) == sd
    ensures typ.E? ==> CrossCut(CrossCut(sd, typ), typ) == sd
    ensures typ.U? || typ.DebugPath? ==> CrossCut(sd, typ) == sd
    ensures EvenBranch(CrossCut(sd, typ)) <==> EvenBranch(sd)
  {
    match typ
    case LogX(Xp, b) =>
      assert sd.logBranch + b + sd.logBranchSum + b == (sd.logBranch + sd.logBranchSum) + 2 * b;
    case _ =>
  }

  /** Every sheet reached from a new point keeps log_branch + log_branch_sum even. */
  lemma {:induction false} CrossAllKeepsEven(sd: Sheet, cuts: seq<Cut>)
    requires EvenBranch(sd)
    ensures EvenBranch(CrossAll(sd, cuts))
  {
    if cuts != [] {
      CrossAllKeepsEven(sd, cuts[..|cuts| - 1]);
      CrossCutInverse(CrossAll(sd, cuts[..|cuts| - 1]), cuts[|cuts| - 1].typ);
    }
  }

  /** The bound 4/h^2 on the squared jumps of x+, x- and u. */
  function JumpBound(consts: Consts): real {
    4.0 / (consts.h * consts.h)
  }

  /** The jump bounds of `try_set`: |dp|^2 <= 4, |Re dp| <= 1/2, and |dx+|^2, |dx-|^2, |du|^2 <= 4/h^2. */
  predicate TooFar(v: PointData, c: PointData) {
    JumpTooLarge(Sub(v.p, c.p), Sub(v.xp, c.xp), Sub(v.xm, c.xm), Sub(v.u, c.u), JumpBound(v.consts))
  }

  /** The test of `try_set` on the steps of p, x+, x- and u against the bound of the x+, x- and u jumps. */
  predicate JumpTooLarge(dp: C, dxp: C, dxm: C, du: C, bound: real) {
    NormSqr(dp) > 4.0 || Abs(dp.re) > 0.5 || NormSqr(dxp) > bound || NormSqr(dxm) > bound || NormSqr(du) > bound
  }

  /** The candidate of `try_set` at q on the sheet sd, with u evaluated on the sheet uSheet. */
  function Candidate(v: PointData, q: C, sd: Sheet, uSheet: Sheet, maps: Maps): PointData {
    var crossed := sd.eBranch <= 0;
    PointData(q, XpOn(maps, q, v.consts, crossed), XmOn(maps, q, v.consts, crossed),
              UOn(maps, q, v.consts, crossed, uSheet), v.consts, sd)
  }

  /** `try_set` as written: the new u is evaluated on the point's old sheet. */
  function TrySetAsWritten(v: PointData, p: Option<C>, sd: Sheet, maps: Maps): Option<PointData> {
    if p.None? then None
    else
      var c := Candidate(v, p.value, sd, v.sheet, maps);
      if TooFar(v, c) then None else Some(c)
  }

  /** `try_set` with the new u evaluated on the new sheet. */
  function TrySetSpec(v: PointData, p: Option<C>, sd: Sheet, maps: Maps): (r: Option<PointData>)
    ensures r.Some? <==> p.Some? && !TooFar(v, Candidate(v, p.value, sd, sd, maps))
    ensures r.Some? ==> r.value.p == p.value && r.value.sheet == sd && r.value.consts == v.consts
    ensures r.Some? ==> Consistent(r.value, maps)
    ensures r.Some? ==> NormSqr(Sub(v.p, r.value.p)) <= 4.0 && Abs(Sub(v.p, r.value.p).re) <= 0.5
  {
    if p.None? then None
    else
      var c := Candidate(v, p.value, sd, sd, maps);
      if TooFar(v, c) then None else Some(c)
  }

  /** Maps under which u depends on the sheet only, through log_branch + log_branch_sum; everything else is 0. */
  function SheetOnlyMaps(): Maps {
    Maps((q: C, c: Consts) => C(0.0, 0.0), (q: C, c: Consts) => C(0.0, 0.0),
         (q: C, c: Consts, s: Sheet) => C((s.logBranch + s.logBranchSum) as real, 0.0),
         (q: C, c: Consts) => C(0.0, 0.0), (q: C, c: Consts) => C(0.0, 0.0),
         (q: C, c: Consts, s: Sheet) => C((s.logBranch + s.logBranchSum) as real, 0.0),
         (comp: Component, t: C, crossed: bool, c: Consts, s: Sheet, g: C) => None)
  }

  /**
   * Crossing the x+ log cut with step 1 from the origin: `try_set` as
   * written accepts the move but stores the u of the old sheet, so the point
   * it leaves is inconsistent; with the new sheet the same move is accepted
   * and consistent.
   */
  lemma AsWrittenStoresStaleU()
    ensures var maps := SheetOnlyMaps();
      var v := PointData(C(0.0, 0.0), C(0.0, 0.0), C(0.0, 0.0), C(0.0, 0.0), CouplingConstants(1.0, 1), Sheet(0, 0, 1));
      var sd := CrossCut(v.sheet, LogX(Xp, 1));
      Consistent(v, maps) &&
      TrySetAsWritten(v, Some(C(0.1, 0.0)), sd, maps).Some? &&
      !Consistent(TrySetAsWritten(v, Some(C(0.1, 0.0)), sd, maps).value, maps) &&
      TrySetSpec(v, Some(C(0.1, 0.0)), sd, maps).Some?
  {
    var maps := SheetOnlyMaps();
    var v := PointData(C(0.0, 0.0), C(0.0, 0.0), C(0.0, 0.0), C(0.0, 0.0), CouplingConstants(1.0, 1), Sheet(0, 0, 1));
    var sd := CrossCut(v.sheet, LogX(Xp, 1));
    assert sd == Sheet(1, 1, 1);
    var stale := Candidate(v, C(0.1, 0.0), sd, v.sheet, maps);
    assert stale == PointData(C(0.1, 0.0), C(0.0, 0.0), C(0.0, 0.0), C(0.0, 0.0), v.consts, sd);
    CloseMove(v, stale);
    var onNew := Candidate(v, C(0.1, 0.0), sd, sd, maps);
    assert onNew == PointData(C(0.1, 0.0), C(0.0, 0.0), C(0.0, 0.0), C(2.0, 0.0), v.consts, sd);
    CloseMove(v, onNew);
  }

  /** The moves of the counterexample above stay within the jump bounds of `try_set` when h = 1. */
  lemma CloseMove(v: PointData, c: PointData)
    requires v.p == C(0.0, 0.0) && v.xp == C(0.0, 0.0) && v.xm == C(0.0, 0.0) && v.u == C(0.0, 0.0)
    requires v.consts == CouplingConstants(1.0, 1)
    requires c.p == C(0.1, 0.0) && c.xp == C(0.0, 0.0) && c.xm == C(0.0, 0.0)
    requires c.u == C(0.0, 0.0) || c.u == C(2.0, 0.0)
    ensures !TooFar(v, c)
  {
    UnitJumpBound(v);
    SmallSteps(v.p, c.p, v.xp, c.xp, v.xm, c.xm, v.u, c.u);
  }

  lemma SmallSteps(p0: C, p1: C, xp0: C, xp1: C, xm0: C, xm1: C, u0: C, u1: C)
    requires p0 == C(0.0, 0.0) && xp0 == C(0.0, 0.0) && xm0 == C(0.0, 0.0) && u0 == C(0.0, 0.0)
    requires p1 == C(0.1, 0.0) && xp1 == C(0.0, 0.0) && xm1 == C(0.0, 0.0)
    requires u1 == C(0.0, 0.0) || u1 == C(2.0, 0.0)
    ensures !JumpTooLarge(Sub(p0, p1), Sub(xp0, xp1), Sub(xm0, xm1), Sub(u0, u1), 4.0)
  {
  }

  lemma UnitJumpBound(v: PointData)
    requires v.consts == CouplingConstants(1.0, 1)
    ensures JumpBound(v.consts) == 4.0
  {
  }

  /** The guesses of the root crate's `update`: p, then p -/+ 0.01. */
  function Guesses(p: C): seq<C> {
    [p, Sub(p, Real(0.01)), Add(p, Real(0.01))]
  }

  /**
   * The p at which a guess lands: the requested value in the p plane, a
   * root of the map otherwise (the u map on the point's old sheet, as the
   * source's `shift_u` evaluates it).
   */
  function Target(v: PointData, comp: Component, value: C, sd: Sheet, guess: C, maps: Maps): Option<C> {
    if comp == P then Some(value)
    else maps.findRoot(comp, value, sd.eBranch <= 0, v.consts, if comp == Component.U then v.sheet else sd, guess)
  }

  /** The point reached from the first guess whose candidate is accepted. */
  function FirstAccepted(v: PointData, comp: Component, value: C, sd: Sheet, guesses: seq<C>, maps: Maps): Option<PointData> {
    if guesses == [] then None
    else
      var r := TrySetSpec(v, Target(v, comp, value, sd, guesses[0], maps), sd, maps);
      if r.Some? then r else FirstAccepted(v, comp, value, sd, guesses[1..], maps)
  }

  /** The outcome of `PxuPoint::update`: the new point, or None when every guess is refused. */
  function UpdateResult(v: PointData, comp: Component, value: C, cuts: seq<Cut>, maps: Maps): Option<PointData> {
    FirstAccepted(v, comp, value, CrossAll(v.sheet, cuts), Guesses(v.p), maps)
  }

  /**
   * An update succeeds iff some guess is accepted, and then lands on the
   * sheet reached by crossing the cuts, consistently, with the first guess
   * that is accepted.
   */
  lemma {:induction false} FirstAcceptedFound(v: PointData, comp: Component, value: C, sd: Sheet, guesses: seq<C>, maps: Maps)
    ensures var r := FirstAccepted(v, comp, value, sd, guesses, maps);
      r.Some? <==> exists i :: 0 <= i < |guesses| && TrySetSpec(v, Target(v, comp, value, sd, guesses[i], maps), sd, maps).Some?
    ensures var r := FirstAccepted(v, comp, value, sd, guesses, maps);
      r.Some? ==> r.value.sheet == sd && r.value.consts == v.consts && Consistent(r.value, maps)
  {
    if guesses != [] {
      FirstAcceptedFound(v, comp, value, sd, guesses[1..], maps);
      var r0 := TrySetSpec(v, Target(v, comp, value, sd, guesses[0], maps), sd, maps);
      if r0.None? {
        var r := FirstAccepted(v, comp, value, sd, guesses, maps);
        if r.Some? {
          var i :| 0 <= i < |guesses[1..]| && TrySetSpec(v, Target(v, comp, value, sd, guesses[1..][i], maps), sd, maps).Some?;
          assert guesses[1..][i] == guesses[i + 1];
        } else {
          forall i | 0 <= i < |guesses|
            ensures TrySetSpec(v, Target(v, comp, value, sd, guesses[i], maps), sd, maps).None?
          {
            if i > 0 {
              assert guesses[i] == guesses[1..][i - 1];
            }
          }
        }
      }
    }
  }

  /** From a point whose sheet has an even branch sum, every update keeps it even. */
  lemma UpdateKeepsEven(v: PointData, comp: Component, value: C, cuts: seq<Cut>, maps: Maps)
    requires EvenBranch(v.sheet)
    ensures var r := UpdateResult(v, comp, value, cuts, maps);
      r.Some? ==> EvenBranch(r.value.sheet) && r.value.sheet == CrossAll(v.sheet, cuts)
  {
    CrossAllKeepsEven(v.sheet, cuts);
    FirstAcceptedFound(v, comp, value, CrossAll(v.sheet, cuts), Guesses(v.p), maps);
  }

  /** A `PxuPoint` of the root crate, whose fields `try_set` and `update` overwrite. */
  class PxuPoint {
    var p: C
    var xp: C
    var xm: C
    var u: C
    var consts: Consts
    var sheet: Sheet

    function Value(): PointData
      reads this
    {
      PointData(p, xp, xm, u, consts, sheet)
    }

    /** `PxuPoint::new`. */
    constructor New(p0: C, consts0: Consts, maps: Maps)
      ensures Value() == Initial(p0, consts0, maps)
    {
      var v := Initial(p0, consts0, maps);
      p, xp, xm, u, consts, sheet := v.p, v.xp, v.xm, v.u, v.consts, v.sheet;
    }

    /** `PxuPoint::get`. */
    function GetValue(comp: Component): (z: C)
      reads this
      ensures z == Get(Value(), comp)
    {
      match comp
      case P => p
      case Xp => xp
      case Xm => xm
      case U => u
    }

    /** `PxuPoint::try_set`, with u on the new sheet: all fields are replaced, or none. */
    method TrySet(candidate: Option<C>, sd: Sheet, maps: Maps) returns (ok: bool)
      modifies this
      ensures ok <==> TrySetSpec(old(Value()), candidate, sd, maps).Some?
      ensures ok ==> Value() == TrySetSpec(old(Value()), candidate, sd, maps).value
      ensures !ok ==> Value() == old(Value())
    {
      if candidate.None? {
        return false;
      }
      var q := candidate.value;
      var newXp, newXm, newU;
      if sd.eBranch > 0 {
        newXp := maps.xp(q, consts);
        newXm := maps.xm(q, consts);
        newU := maps.u(q, consts, sd);
      } else {
        newXp := maps.xpCrossed(q, consts);
        newXm := maps.xmCrossed(q, consts);
        newU := maps.uCrossed(q, consts, sd);
      }
      var bound := JumpBound(consts);
      if NormSqr(Sub(p, q)) > 4.0 || Abs(Sub(p, q).re) > 0.5 {
        return false;
      }
      if NormSqr(Sub(xp, newXp)) > bound {
        return false;
      }
      if NormSqr(Sub(xm, newXm)) > bound {
        return false;
      }
      if NormSqr(Sub(u, newU)) > bound {
        return false;
      }
      sheet := sd;
      p := q;
      xp := newXp;
      xm := newXm;
      u := newU;
      return true;
    }

    /** `PxuPoint::update`: crosses the cuts, then keeps the first accepted guess. */
    method Update(comp: Component, value: C, cuts: seq<Cut>, maps: Maps)
      modifies this
      ensures UpdateResult(old(Value()), comp, value, cuts, maps).Some? ==>
        Value() == UpdateResult(old(Value()), comp, value, cuts, maps).value
      ensures UpdateResult(old(Value()), comp, value, cuts, maps).None? ==> Value() == old(Value())
    {
      var v0 := Value();
      var sd := sheet;
      var i := 0;
      while i < |cuts|
        invariant 0 <= i <= |cuts|
        invariant sd == CrossAll(v0.sheet, cuts[..i])
      {
        assert cuts[..i + 1][..i] == cuts[..i];
        sd := CrossCut(sd, cuts[i].typ);
        i := i + 1;
      }
      assert cuts[..|cuts|] == cuts;
      var guesses := Guesses(p);
      var j := 0;
      while j < |guesses|
        invariant 0 <= j <= |guesses|
        invariant Value() == v0
        invariant UpdateResult(v0, comp, value, cuts, maps) == FirstAccepted(v0, comp, value, sd, guesses[j..], maps)
      {
        var target := Target(v0, comp, value, sd, guesses[j], maps);
        var ok := TrySet(target, sd, maps);
        if ok {
          return;
        }
        j := j + 1;
      }
    }
  }
}
