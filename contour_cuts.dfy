/**
 * The cut and point types of the contour generator in `pxu/src/pxu.rs`.
 * That file predates the current sheet record: its sheet data has integer
 * u branches and no Im x signs, a cut holds several paths, and its
 * visibility conditions know about long and short cuts. `Component` and
 * `CutType` are the same there as in the rest of the crate and are shared.
 */
module ContourCuts {
  import opened Complex
  import opened Wrappers
  import opened Kinematics
  import CutModel

  /** The sheet record of `pxu/src/pxu.rs`: the u branches are the integers 1 (outside) and -1 (inside). */
  datatype Sheet = Sheet(logBranchP: int, logBranchM: int, eBranch: int, uBranch: (int, int))

  /** The value of a `PxuPoint`: its coordinates, the coupling constants and its sheet. */
  datatype PointData = PointData(p: C, xp: C, xm: C, u: C, consts: Consts, sheet: Sheet)

  /**
   * The numerical maps a `PxuPoint` uses, given rather than computed: x+, x-
   * and u on the physical sheet and on the sheet reached through the E cut,
   * and Newton's method inverting the map of a component on a sheet
   * (target value, starting guess), which may fail.
   */
  datatype Maps = Maps(
    xp: (C, Consts) -> C,
    xm: (C, Consts) -> C,
    u: (C, Consts, Sheet) -> C,
    xpCrossed: (C, Consts) -> C,
    xmCrossed: (C, Consts) -> C,
    uCrossed: (C, Consts, Sheet) -> C,
    findRoot: (Component, C, Consts, Sheet, C) -> Option<C>)

  /** x+ of p on a sheet: the crossed map when the energy branch is not positive. */
  function XpOn(maps: Maps, p: C, consts: Consts, sd: Sheet): C {
    if sd.eBranch > 0 then maps.xp(p, consts) else maps.xpCrossed(p, consts)
  }

  function XmOn(maps: Maps, p: C, consts: Consts, sd: Sheet): C {
    if sd.eBranch > 0 then maps.xm(p, consts) else maps.xmCrossed(p, consts)
  }

  function UOn(maps: Maps, p: C, consts: Consts, sd: Sheet): C {
    if sd.eBranch > 0 then maps.u(p, consts, sd) else maps.uCrossed(p, consts, sd)
  }

  /** The stored x+, x- and u are those of p on the stored sheet. */
  predicate Consistent(v: PointData, maps: Maps) {
    v.xp == XpOn(maps, v.p, v.consts, v.sheet) &&
    v.xm == XmOn(maps, v.p, v.consts, v.sheet) &&
    v.u == UOn(maps, v.p, v.consts, v.sheet)
  }

  function Get(v: PointData, c: Component): C {
    match c
    case P => v.p
    case Xp => v.xp
    case Xm => v.xm
    case U => v.u
  }

  /** A new point at p: log branches 0 and floor(Re p), physical energy branch, u branches from the x- log branch. */
  function Initial(p: C, consts: Consts, maps: Maps): (v: PointData)
    ensures v.p == p && v.consts == consts
    ensures v.sheet.logBranchP == 0 && v.sheet.logBranchM == SaturateI32(p.re.Floor) && v.sheet.eBranch == 1
    ensures v.sheet.logBranchM >= 0 ==> v.sheet.uBranch == (1, 1)
    ensures v.sheet.logBranchM < 0 ==> v.sheet.uBranch == (-1, -1)
    ensures Consistent(v, maps)
  {
    var lbm := SaturateI32(p.re.Floor);
    var sd := Sheet(0, lbm, 1, if lbm >= 0 then (1, 1) else (-1, -1));
    PointData(p, maps.xp(p, consts), maps.xm(p, consts), maps.u(p, consts, sd), consts, sd)
  }

  /** A move of p that `try_set` refuses: more than 1/8 along the real axis or 1/4 along the imaginary axis. */
  predicate TooFar(from: C, to: C) {
    Abs(from.re - to.re) > 0.125 || Abs(from.im - to.im) > 0.25
  }

  /**
   * `PxuPoint::try_set` on values: None when there is no candidate or the
   * jump in p is too large; jumps in x+, x- and u are only logged.
   */
  function Accept(v: PointData, p: Option<C>, sd: Sheet, maps: Maps): (r: Option<PointData>)
    ensures r.Some? <==> p.Some? && !TooFar(v.p, p.value)
    ensures r.Some? ==> r.value.p == p.value && r.value.sheet == sd && r.value.consts == v.consts
    ensures r.Some? ==> Consistent(r.value, maps)
  {
    if p.None? || TooFar(v.p, p.value) then None
    else
      var q := p.value;
      Some(PointData(q, XpOn(maps, q, v.consts, sd), XmOn(maps, q, v.consts, sd), UOn(maps, q, v.consts, sd), v.consts, sd))
  }

  /** The sheet after crossing one cut of the given type, seen from a point with the given x+ and x-. */
  function CrossCut(sd: Sheet, typ: CutModel.CutType, xp: C, xm: C): Sheet {
    match typ
    case E => sd.(eBranch := -sd.eBranch)
    case UShortScallion(Xp) => sd.(uBranch := (-sd.uBranch.0, sd.uBranch.1))
    case UShortScallion(Xm) => sd.(uBranch := (sd.uBranch.0, -sd.uBranch.1))
    case Log(Xp) => sd.(logBranchP := if xp.im >= 0.0 then sd.logBranchP + 1 else sd.logBranchP - 1)
    case Log(Xm) => sd.(logBranchM := if xm.im <= 0.0 then sd.logBranchM + 1 else sd.logBranchM - 1)
    case _ => sd
  }

  /** The sheet after crossing every cut of the list in order. */
  function CrossAll(sd: Sheet, cuts: seq<Cut>, xp: C, xm: C): Sheet {
    if cuts == [] then sd
    else CrossCut(CrossAll(sd, cuts[..|cuts| - 1], xp, xm), cuts[|cuts| - 1].typ, xp, xm)
  }

  /**
   * Crossing a cut twice restores the sheet, except for the log cuts, which
   * step the log branch twice in the same direction; long u cuts and short
   * kidney cuts leave this sheet record alone.
   */
  lemma CrossTwice(sd: Sheet, typ: CutModel.CutType, xp: C, xm: C)
    ensures !typ.Log? ==> CrossCut(CrossCut(sd, typ, xp, xm), typ, xp, xm) == sd
    ensures typ == CutModel.Log(Xp) ==>
      CrossCut(CrossCut(sd, typ, xp, xm), typ, xp, xm).logBranchP == sd.logBranchP + (if xp.im >= 0.0 then 2 else -2)
    ensures typ == CutModel.Log(Xm) ==>
      CrossCut(CrossCut(sd, typ, xp, xm), typ, xp, xm).logBranchM == sd.logBranchM + (if xm.im <= 0.0 then 2 else -2)
    ensures typ.ULongPositive? || typ.ULongNegative? || typ.UShortKidney? || typ.DebugPath? ==>
      CrossCut(sd, typ, xp, xm) == sd
  {
  }

  /** The p at which a guess lands: the requested value itself for the p plane, a root of the map otherwise. */
  function Target(v: PointData, comp: Component, value: C, sd: Sheet, guess: C, maps: Maps): Option<C> {
    if comp == P then Some(value) else maps.findRoot(comp, value, v.consts, sd, guess)
  }

  /** The point reached from the first guess whose candidate `try_set` accepts. */
  function FirstAccepted(v: PointData, comp: Component, value: C, sd: Sheet, guesses: seq<C>, maps: Maps): Option<PointData> {
    if guesses == [] then None
    else
      var r := Accept(v, Target(v, comp, value, sd, guesses[0], maps), sd, maps);
      if r.Some? then r else FirstAccepted(v, comp, value, sd, guesses[1..], maps)
  }

  /** The guesses of `PxuPoint::update`: p, then p -/+ 0.01, then p -/+ 0.05. */
  function Guesses(p: C): seq<C> {
    [p, Sub(p, Real(0.01)), Add(p, Real(0.01)), Sub(p, Real(0.05)), Add(p, Real(0.05))]
  }

  /** The outcome of `PxuPoint::update`: the new point, or None when every guess is refused. */
  function UpdateResult(v: PointData, comp: Component, value: C, cuts: seq<Cut>, maps: Maps): Option<PointData> {
    FirstAccepted(v, comp, value, CrossAll(v.sheet, cuts, v.xp, v.xm), Guesses(v.p), maps)
  }

  lemma {:induction false} FirstAcceptedFound(v: PointData, comp: Component, value: C, sd: Sheet, guesses: seq<C>, maps: Maps)
    ensures var r := FirstAccepted(v, comp, value, sd, guesses, maps);
      r.Some? <==> exists i :: 0 <= i < |guesses| && Accept(v, Target(v, comp, value, sd, guesses[i], maps), sd, maps).Some?
    ensures var r := FirstAccepted(v, comp, value, sd, guesses, maps);
      r.Some? ==> r.value.sheet == sd && r.value.consts == v.consts && Consistent(r.value, maps)
  {
    if guesses != [] {
      FirstAcceptedFound(v, comp, value, sd, guesses[1..], maps);
      var r0 := Accept(v, Target(v, comp, value, sd, guesses[0], maps), sd, maps);
      if r0.None? {
        var r := FirstAccepted(v, comp, value, sd, guesses, maps);
        if r.Some? {
          var i :| 0 <= i < |guesses[1..]| && Accept(v, Target(v, comp, value, sd, guesses[1..][i], maps), sd, maps).Some?;
          assert guesses[1..][i] == guesses[i + 1];
        } else {
          forall i | 0 <= i < |guesses|
            ensures Accept(v, Target(v, comp, value, sd, guesses[i], maps), sd, maps).None?
          {
            if i > 0 {
              assert guesses[i] == guesses[1..][i - 1];
            }
          }
        }
      }
    }
  }

  /**
   * Moving in the p plane every guess proposes the requested value itself,
   * so the update succeeds exactly when that value is close enough, and
   * then lands on it, on the crossed sheet.
   */
  lemma UpdatePOutcome(v: PointData, value: C, cuts: seq<Cut>, maps: Maps)
    ensures var r := UpdateResult(v, P, value, cuts, maps);
      (r.Some? <==> !TooFar(v.p, value)) &&
      (r.Some? ==> r.value.p == value && r.value.sheet == CrossAll(v.sheet, cuts, v.xp, v.xm) && Consistent(r.value, maps))
  {
    FirstAcceptedInP(v, value, CrossAll(v.sheet, cuts, v.xp, v.xm), Guesses(v.p), maps);
  }

  /** In the p plane the guesses do not matter: the outcome is that of the first. */
  lemma {:induction false} FirstAcceptedInP(v: PointData, value: C, sd: Sheet, guesses: seq<C>, maps: Maps)
    requires guesses != []
    ensures FirstAccepted(v, P, value, sd, guesses, maps) == Accept(v, Some(value), sd, maps)
  {
    if |guesses| > 1 && Accept(v, Some(value), sd, maps).None? {
      FirstAcceptedInP(v, value, sd, guesses[1..], maps);
    }
  }

  /** A `PxuPoint`, whose fields `try_set` and `update` overwrite in place. */
  class PxuPoint {
    var p: C
    var xp: C
    var xm: C
    var u: C
    var consts: Consts
    var sheet: Sheet

    function Value(): PointData
      reads this
    {
      PointData(p, xp, xm, u, consts, sheet)
    }

    /** `PxuPoint::new`. */
    constructor New(p0: C, consts0: Consts, maps: Maps)
      ensures Value() == Initial(p0, consts0, maps)
    {
      var v := Initial(p0, consts0, maps);
      p, xp, xm, u, consts, sheet := v.p, v.xp, v.xm, v.u, v.consts, v.sheet;
    }

    /** `PxuPoint::try_set`: all fields are replaced, or none. */
    method TrySet(candidate: Option<C>, sd: Sheet, maps: Maps) returns (ok: bool)
      modifies this
      ensures ok <==> Accept(old(Value()), candidate, sd, maps).Some?
      ensures ok ==> Value() == Accept(old(Value()), candidate, sd, maps).value
      ensures !ok ==> Value() == old(Value())
    {
      if candidate.None? {
        return false;
      }
      var q := candidate.value;
      var newXp, newXm, newU;
      if sd.eBranch > 0 {
        newXp := maps.xp(q, consts);
        newXm := maps.xm(q, consts);
        newU := maps.u(q, consts, sd);
      } else {
        newXp := maps.xpCrossed(q, consts);
        newXm := maps.xmCrossed(q, consts);
        newU := maps.uCrossed(q, consts, sd);
      }
      if Abs(p.re - q.re) > 0.125 || Abs(p.im - q.im) > 0.25 {
        return false;
      }
      sheet := sd;
      p := q;
      xp := newXp;
      xm := newXm;
      u := newU;
      return true;
    }

    /**
     * `PxuPoint::update`: crosses the given cuts, then tries the guesses in
     * order and keeps the first candidate that `try_set` accepts.
     */
    method Update(comp: Component, value: C, cuts: seq<Cut>, maps: Maps)
      modifies this
      ensures UpdateResult(old(Value()), comp, value, cuts, maps).Some? ==>
        Value() == UpdateResult(old(Value()), comp, value, cuts, maps).value
      ensures UpdateResult(old(Value()), comp, value, cuts, maps).None? ==> Value() == old(Value())
    {
      var v0 := Value();
      var sd := sheet;
      var i := 0;
      while i < |cuts|
        invariant 0 <= i <= |cuts|
        invariant sd == CrossAll(v0.sheet, cuts[..i], v0.xp, v0.xm)
      {
        assert cuts[..i + 1][..i] == cuts[..i];
        sd := CrossCut(sd, cuts[i].typ, xp, xm);
        i := i + 1;
      }
      assert cuts[..|cuts|] == cuts;
      var guesses := Guesses(p);
      var j := 0;
      while j < |guesses|
        invariant 0 <= j <= |guesses|
        invariant Value() == v0
        invariant UpdateResult(v0, comp, value, cuts, maps) == FirstAccepted(v0, comp, value, sd, guesses[j..], maps)
      {
        var target := if comp == P then Some(value) else maps.findRoot(comp, value, consts, sd, guesses[j]);
        var ok := TrySet(target, sd, maps);
        if ok {
          return;
        }
        j := j + 1;
      }
    }
  }

  /** Visibility conditions of the cuts of the contour generator. */
  datatype Condition =
    | ImXp(sign: int)
    | ImXm(sign: int)
    | LogBranch(branch: int)
    | EBranch(branch: int)
    | UpBranch(ub: int)
    | UmBranch(ub: int)
    | ImXpOrUpBranch(sign: int, ub: int)
    | ImXmOrUmBranch(sign: int, ub: int)
    | LongCuts
    | ShortCuts
  {
    /** The condition at a point, when the long (or else the short) u cuts are shown. */
    predicate Check(pt: PointData, longCuts: bool) {
      match this
      case ImXp(s) => Signum(pt.xp.im) == IntSignum(s)
      case ImXm(s) => Signum(pt.xm.im) == IntSignum(s)
      case LogBranch(b) => b == pt.sheet.logBranchP + pt.sheet.logBranchM
      case EBranch(b) => pt.sheet.eBranch == b
      case UpBranch(b) => pt.sheet.uBranch.0 == b
      case UmBranch(b) => pt.sheet.uBranch.1 == b
      case ImXpOrUpBranch(s, b) => if longCuts then Signum(pt.xp.im) == IntSignum(s) else pt.sheet.uBranch.0 == b
      case ImXmOrUmBranch(s, b) => if longCuts then Signum(pt.xm.im) == IntSignum(s) else pt.sheet.uBranch.1 == b
      case LongCuts => longCuts
      case ShortCuts => !longCuts
    }

    function Conj(): Condition {
      match this
      case ImXp(s) => ImXm(-s)
      case ImXm(s) => ImXp(-s)
      case LogBranch(b) => LogBranch(b)
      case EBranch(b) => EBranch(b)
      case UpBranch(b) => UmBranch(b)
      case UmBranch(b) => UpBranch(b)
      case ImXpOrUpBranch(s, b) => ImXmOrUmBranch(-s, b)
      case ImXmOrUmBranch(s, b) => ImXpOrUpBranch(-s, b)
      case LongCuts => LongCuts
      case ShortCuts => ShortCuts
    }
  }

  /** The combined conditions test the Im sign with long cuts and the u branch with short cuts. */
  lemma CombinedConditions(s: int, b: int, pt: PointData, longCuts: bool)
    ensures ImXpOrUpBranch(s, b).Check(pt, longCuts) == (if longCuts then ImXp(s) else UpBranch(b)).Check(pt, longCuts)
    ensures ImXmOrUmBranch(s, b).Check(pt, longCuts) == (if longCuts then ImXm(s) else UmBranch(b)).Check(pt, longCuts)
    ensures LongCuts.Check(pt, longCuts) != ShortCuts.Check(pt, longCuts)
  {
  }

  lemma ConditionConjInvolution(v: Condition)
    ensures v.Conj().Conj() == v
  {
  }

  /** The point seen through complex conjugation: x+ and x- trade places and are conjugated. */
  function MirrorPoint(pt: PointData): PointData {
    pt.(xp := Conj(pt.xm), xm := Conj(pt.xp),
        sheet := pt.sheet.(logBranchP := pt.sheet.logBranchM, logBranchM := pt.sheet.logBranchP,
                           uBranch := (pt.sheet.uBranch.1, pt.sheet.uBranch.0)))
  }

  /**
   * A conjugated condition holds at the mirrored point exactly when the
   * condition holds at the point, away from the real axes of x+ and x-
   * (where the sign of a float zero is +1 on both sides).
   */
  lemma ConjCheckMirror(v: Condition, pt: PointData, longCuts: bool)
    requires pt.xp.im != 0.0 && pt.xm.im != 0.0
    ensures v.Conj().Check(MirrorPoint(pt), longCuts) == v.Check(pt, longCuts)
  {
  }

  /** A cut of the contour generator: one or more polylines in one plane. */
  datatype Cut = Cut(
    component: Component,
    paths: seq<seq<C>>,
    branchPoint: Option<C>,
    typ: CutModel.CutType,
    pRange: int,
    visibility: seq<Condition>)

  function ConjConditions(vs: seq<Condition>): (r: seq<Condition>)
    ensures |r| == |vs|
    ensures forall i :: 0 <= i < |vs| ==> r[i] == vs[i].Conj()
  {
    seq(|vs|, i requires 0 <= i < |vs| => vs[i].Conj())
  }

  /** `Cut::conj`: every path reversed and conjugated, x+ and x- swapped. */
  function CutConj(cut: Cut): Cut {
    Cut(cut.component.Conj(),
        seq(|cut.paths|, i requires 0 <= i < |cut.paths| => CutModel.ReverseConj(cut.paths[i])),
        CutModel.MapConj(cut.branchPoint), cut.typ.Conj(), cut.pRange, ConjConditions(cut.visibility))
  }

  lemma ConjConditionsInvolution(vs: seq<Condition>)
    ensures ConjConditions(ConjConditions(vs)) == vs
  {
    var ws := ConjConditions(ConjConditions(vs));
    forall i | 0 <= i < |vs|
      ensures ws[i] == vs[i]
    {
      ConditionConjInvolution(vs[i]);
    }
  }

  lemma CutConjInvolution(cut: Cut)
    ensures CutConj(CutConj(cut)) == cut
  {
    var c2 := CutConj(CutConj(cut));
    forall i | 0 <= i < |cut.paths|
      ensures c2.paths[i] == cut.paths[i]
    {
      var path := cut.paths[i];
      forall j | 0 <= j < |path|
        ensures c2.paths[i][j] == path[j]
      {
        ConjInvolution(path[j]);
      }
    }
    ConjConditionsInvolution(cut.visibility);
    ComponentConjInvolution(cut.component);
    CutModel.CutTypeConjInvolution(cut.typ);
  }

  function ReflectPath(path: seq<C>, dz: C): seq<C> {
    seq(|path|, j requires 0 <= j < |path| => CutModel.ReflectAt(path[j], dz))
  }

  /** `Cut::shift_conj`: the mirror image in the horizontal line through dz, paths keeping their direction. */
  function ShiftConj(cut: Cut, dz: C): Cut {
    Cut(cut.component.Conj(),
        seq(|cut.paths|, i requires 0 <= i < |cut.paths| => ReflectPath(cut.paths[i], dz)),
        if cut.branchPoint.Some? then Some(CutModel.ReflectAt(cut.branchPoint.value, dz)) else None,
        cut.typ.Conj(), cut.pRange, ConjConditions(cut.visibility))
  }

  lemma ShiftConjInvolution(cut: Cut, dz: C)
    ensures ShiftConj(ShiftConj(cut, dz), dz) == cut
  {
    var c2 := ShiftConj(ShiftConj(cut, dz), dz);
    forall i | 0 <= i < |cut.paths|
      ensures c2.paths[i] == cut.paths[i]
    {
    }
    ConjConditionsInvolution(cut.visibility);
    ComponentConjInvolution(cut.component);
    CutModel.CutTypeConjInvolution(cut.typ);
  }

  function TranslatePath(path: seq<C>, dz: C): seq<C> {
    seq(|path|, j requires 0 <= j < |path| => Add(path[j], dz))
  }

  /** The cut with every vertex and the branch point moved by dz. */
  function Translated(cut: Cut, dz: C): Cut {
    cut.(paths := seq(|cut.paths|, i requires 0 <= i < |cut.paths| => TranslatePath(cut.paths[i], dz)),
         branchPoint := if cut.branchPoint.Some? then Some(Add(cut.branchPoint.value, dz)) else None)
  }

  lemma TranslatedInverse(cut: Cut, dz: C)
    ensures Translated(Translated(cut, dz), C(-dz.re, -dz.im)) == cut
  {
    var c2 := Translated(Translated(cut, dz), C(-dz.re, -dz.im));
    forall i | 0 <= i < |cut.paths|
      ensures c2.paths[i] == cut.paths[i]
    {
    }
  }

  /** Translating by zero changes nothing. */
  lemma TranslatedZero(cut: Cut)
    ensures Translated(cut, C(0.0, 0.0)) == cut
  {
    var c2 := Translated(cut, C(0.0, 0.0));
    forall i | 0 <= i < |cut.paths|
      ensures c2.paths[i] == cut.paths[i]
    {
    }
  }

  /** `Cut::shift`: adds dz to every vertex of every path, and to the branch point, in place. */
  method Shift(cut: Cut, dz: C) returns (r: Cut)
    ensures r == Translated(cut, dz)
  {
    var paths := cut.paths;
    var i := 0;
    while i < |paths|
      invariant 0 <= i <= |paths| == |cut.paths|
      invariant forall k :: 0 <= k < i ==> paths[k] == TranslatePath(cut.paths[k], dz)
      invariant forall k :: i <= k < |paths| ==> paths[k] == cut.paths[k]
    {
      var path := paths[i];
      var j := 0;
      while j < |path|
        invariant 0 <= j <= |path| == |cut.paths[i]|
        invariant forall l :: 0 <= l < j ==> path[l] == Add(cut.paths[i][l], dz)
        invariant forall l :: j <= l < |path| ==> path[l] == cut.paths[i][l]
      {
        path := path[j := Add(path[j], dz)];
        j := j + 1;
      }
      paths := paths[i := path];
      i := i + 1;
    }
    var bp := cut.branchPoint;
    if bp.Some? {
      bp := Some(Add(bp.value, dz));
    }
    r := cut.(paths := paths, branchPoint := bp);
  }

  /** A hit of a move on a cut: the index of the path and the hit within it. */
  datatype PathHit = PathHit(path: nat, hit: CutModel.Hit)

  /** The first path, from index i on, with a window that the move p1 p2 crosses, and its first such window. */
  function FirstPathHit(paths: seq<seq<C>>, p1: C, p2: C, i: nat): Option<PathHit>
    decreases |paths| - i
  {
    if i >= |paths| then None
    else
      match CutModel.FirstHit(paths[i], p1, p2, 0)
      case Some(h) => Some(PathHit(i, h))
      case None => FirstPathHit(paths, p1, p2, i + 1)
  }

  lemma {:induction false} FirstPathHitIsFirst(paths: seq<seq<C>>, p1: C, p2: C, i: nat)
    ensures var h := FirstPathHit(paths, p1, p2, i);
      (h.None? <==> forall k :: i <= k < |paths| ==> CutModel.FirstHit(paths[k], p1, p2, 0).None?) &&
      (h.Some? ==>
        i <= h.value.path < |paths| &&
        Some(h.value.hit) == CutModel.FirstHit(paths[h.value.path], p1, p2, 0) &&
        forall k :: i <= k < h.value.path ==> CutModel.FirstHit(paths[k], p1, p2, 0).None?)
    decreases |paths| - i
  {
    if i < |paths| && CutModel.FirstHit(paths[i], p1, p2, 0).None? {
      FirstPathHitIsFirst(paths, p1, p2, i + 1);
    }
  }

  /** `Cut::intersection`: the paths in order, the windows of each in order, the first hit wins. */
  method Intersection(cut: Cut, p1: C, p2: C) returns (hit: Option<PathHit>)
    ensures hit == FirstPathHit(cut.paths, p1, p2, 0)
  {
    hit := PathsIntersection(cut.paths, p1, p2);
  }

  /** The scan of `Cut::intersection` over a list of paths. */
  method PathsIntersection(paths: seq<seq<C>>, p1: C, p2: C) returns (hit: Option<PathHit>)
    ensures hit == FirstPathHit(paths, p1, p2, 0)
  {
    var r := Sub(p2, p1);
    var i := 0;
    while i < |paths|
      invariant 0 <= i <= |paths|
      invariant FirstPathHit(paths, p1, p2, 0) == FirstPathHit(paths, p1, p2, i)
    {
      var path := paths[i];
      var j := 0;
      while j + 1 < |path|
        invariant CutModel.FirstHit(path, p1, p2, 0) == CutModel.FirstHit(path, p1, p2, j)
      {
        var t := CutModel.SegmentHit(p1, r, path[j], path[j + 1]);
        if t.Some? {
          return Some(PathHit(i, CutModel.Hit(j, Add(p1, Scale(t.value, r)), t.value)));
        }
        j := j + 1;
      }
      i := i + 1;
    }
    return None;
  }

  function AllHold(conds: seq<Condition>, pt: PointData, longCuts: bool): (b: bool)
    ensures b <==> forall i :: 0 <= i < |conds| ==> conds[i].Check(pt, longCuts)
  {
    if conds == [] then true else conds[0].Check(pt, longCuts) && AllHold(conds[1..], pt, longCuts)
  }

  /** `Cut::is_visible`: every condition holds; a cut without conditions is always visible. */
  function IsVisible(cut: Cut, pt: PointData, longCuts: bool): (b: bool)
    ensures b <==> forall v :: v in cut.visibility ==> v.Check(pt, longCuts)
    ensures cut.visibility == [] ==> b
  {
    AllHold(cut.visibility, pt, longCuts)
  }

  /** The six kinds of branch point of the x cuts. */
  datatype BranchPointType =
    | XpPositiveAxisImXmNegative
    | XpPositiveAxisImXmPositive
    | XpNegativeAxisFromAboveWithImXmNegative
    | XpNegativeAxisFromBelowWithImXmNegative
    | XpNegativeAxisFromAboveWithImXmPositive
    | XpNegativeAxisFromBelowWithImXmPositive

  datatype BranchPointData = BranchPointData(p: real, m: real, typ: BranchPointType)

  /** The bound-state number m at which the branch point of the given type sits, for the p range starting at pStart. */
  function BranchPointMass(pStart: real, k: real, typ: BranchPointType): real {
    match typ
    case XpPositiveAxisImXmNegative => 2.0 * pStart * k + 2.0
    case XpPositiveAxisImXmPositive => -(2.0 * pStart * k + 2.0)
    case XpNegativeAxisFromAboveWithImXmNegative => (2.0 * pStart + 1.0) * k + 2.0
    case XpNegativeAxisFromBelowWithImXmNegative => (2.0 * pStart - 1.0) * k + 2.0
    case XpNegativeAxisFromAboveWithImXmPositive => -((2.0 * pStart + 1.0) * k + 2.0)
    case XpNegativeAxisFromBelowWithImXmPositive => -((2.0 * pStart - 1.0) * k + 2.0)
  }

  /**
   * The masses with Im x- positive are the negatives of those with Im x-
   * negative, and on the negative axis the mass is k above (from above) or
   * k below (from below) the one on the positive axis.
   */
  lemma BranchPointMassRelations(pStart: real, k: real)
    ensures BranchPointMass(pStart, k, XpPositiveAxisImXmPositive) == -BranchPointMass(pStart, k, XpPositiveAxisImXmNegative)
    ensures BranchPointMass(pStart, k, XpNegativeAxisFromAboveWithImXmPositive) ==
      -BranchPointMass(pStart, k, XpNegativeAxisFromAboveWithImXmNegative)
    ensures BranchPointMass(pStart, k, XpNegativeAxisFromBelowWithImXmPositive) ==
      -BranchPointMass(pStart, k, XpNegativeAxisFromBelowWithImXmNegative)
    ensures BranchPointMass(pStart, k, XpNegativeAxisFromAboveWithImXmNegative) ==
      BranchPointMass(pStart, k, XpPositiveAxisImXmNegative) + k
    ensures BranchPointMass(pStart, k, XpNegativeAxisFromBelowWithImXmNegative) ==
      BranchPointMass(pStart, k, XpPositiveAxisImXmNegative) - k
  {
  }

  /** A real in [-1, 1]: the argument of a complex number divided by pi. */
  type Phase = r: real | -1.0 <= r <= 1.0

  /**
   * `compute_branch_point`: Newton's method (given, it may fail) finds x at
   * the branch point for the mass of the type; p is |arg x| / pi.
   */
  function ComputeBranchPoint(pRange: int, typ: BranchPointType, consts: Consts,
                              findBranchPoint: (real, Consts, BranchPointType) -> Option<C>,
                              argOverPi: C -> Phase): (r: Option<BranchPointData>)
    ensures r.Some? <==> findBranchPoint(BranchPointMass(pRange as real, consts.k as real, typ), consts, typ).Some?
    ensures r.Some? ==> r.value.m == BranchPointMass(pRange as real, consts.k as real, typ) && r.value.typ == typ
    ensures r.Some? ==> 0.0 <= r.value.p <= 1.0
  {
    var m := BranchPointMass(pRange as real, consts.k as real, typ);
    match findBranchPoint(m, consts, typ)
    case Some(x) => Some(BranchPointData(Abs(argOverPi(x)), m, typ))
    case None => None
  }
}
