/**
 * Cut descriptors of the `pxu` crate: a polyline in one plane with a type
 * and a list of visibility conditions, together with conjugation, shifting,
 * the segment intersection test and the visibility test.
 */
module CutModel {
  import opened Complex
  import opened Wrappers
  import opened Kinematics

  /** The kinds of cut; each kind changes the sheet data in its own way when crossed. */
  datatype CutType =
    | E
    | DebugPath
    | Log(component: Component)
    | ULongPositive(component: Component)
    | ULongNegative(component: Component)
    | UShortScallion(component: Component)
    | UShortKidney(component: Component)
  {
    /** Conjugation swaps the x+ and x- versions of a cut type. */
    function Conj(): CutType {
      match this
      case E => E
      case DebugPath => DebugPath
      case Log(c) => Log(c.Conj())
      case ULongPositive(c) => ULongPositive(c.Conj())
      case ULongNegative(c) => ULongNegative(c.Conj())
      case UShortScallion(c) => UShortScallion(c.Conj())
      case UShortKidney(c) => UShortKidney(c.Conj())
    }
  }

  /** A condition on a point that must hold for a cut to be drawn and crossed. */
  datatype Condition =
    | ImXp(sign: int)
    | ImXm(sign: int)
    | LogBranch(branch: int)
    | EBranch(branch: int)
    | UpBranch(ub: UBranch)
    | UmBranch(ub: UBranch)
  {
    predicate Check(pt: Point) {
      match this
      case ImXp(s) => Signum(pt.xp.im) == IntSignum(s)
      case ImXm(s) => Signum(pt.xm.im) == IntSignum(s)
      case LogBranch(b) => b == pt.sheetData.logBranchP + pt.sheetData.logBranchM
      case EBranch(b) => pt.sheetData.eBranch == b
      case UpBranch(b) => pt.sheetData.uBranch.0 == b
      case UmBranch(b) => pt.sheetData.uBranch.1 == b
    }

    /** The condition on the conjugate point: the x+ and x- conditions trade places. */
    function Conj(): Condition {
      match this
      case ImXp(s) => ImXm(-s)
      case ImXm(s) => ImXp(-s)
      case LogBranch(b) => LogBranch(b)
      case EBranch(b) => EBranch(b)
      case UpBranch(b) => UmBranch(b)
      case UmBranch(b) => UpBranch(b)
    }
  }

  datatype Cut = Cut(
    component: Component,
    path: seq<C>,
    branchPoint: Option<C>,
    typ: CutType,
    pRange: int,
    periodic: bool,
    visibility: seq<Condition>)

  /** Where a move segment meets a cut: the index of the cut segment, the point and its parameter. */
  datatype Hit = Hit(index: nat, point: C, t: real)

  lemma CutTypeConjInvolution(t: CutType)
    ensures t.Conj().Conj() == t
    ensures t.Conj() == t <==> t.E? || t.DebugPath? || t.component in {P, U}
  {
    match t
    case E =>
    case DebugPath =>
    case Log(c) => ComponentConjInvolution(c);
    case ULongPositive(c) => ComponentConjInvolution(c);
    case ULongNegative(c) => ComponentConjInvolution(c);
    case UShortScallion(c) => ComponentConjInvolution(c);
    case UShortKidney(c) => ComponentConjInvolution(c);
  }

  lemma ConditionConjInvolution(v: Condition)
    ensures v.Conj().Conj() == v
    ensures v.ImXp? <==> v.Conj().ImXm?
    ensures v.UpBranch? <==> v.Conj().UmBranch?
  {
  }

  /** A sign of 0 never matches, because the sign of a float is always +1 or -1. */
  lemma ImSignZeroNeverHolds(pt: Point)
    ensures !ImXp(0).Check(pt) && !ImXm(0).Check(pt)
  {
  }

  function MapConj(z: Option<C>): Option<C> {
    if z.Some? then Some(Conj(z.value)) else None
  }

  /** The path run backwards with every vertex conjugated. */
  function ReverseConj(path: seq<C>): (r: seq<C>)
    ensures |r| == |path|
    ensures forall i :: 0 <= i < |path| ==> r[i] == Conj(path[|path| - 1 - i])
  {
    seq(|path|, i requires 0 <= i < |path| => Conj(path[|path| - 1 - i]))
  }

  function ConjConditions(vs: seq<Condition>): (r: seq<Condition>)
    ensures |r| == |vs|
    ensures forall i :: 0 <= i < |vs| ==> r[i] == vs[i].Conj()
  {
    seq(|vs|, i requires 0 <= i < |vs| => vs[i].Conj())
  }

  /** The mirror image of a cut under complex conjugation. */
  function CutConj(cut: Cut): Cut {
    Cut(cut.component.Conj(), ReverseConj(cut.path), MapConj(cut.branchPoint),
        cut.typ.Conj(), cut.pRange, cut.periodic, ConjConditions(cut.visibility))
  }

  lemma CutConjInvolution(cut: Cut)
    ensures CutConj(CutConj(cut)) == cut
    ensures |CutConj(cut).path| == |cut.path|
    ensures CutConj(cut).periodic == cut.periodic && CutConj(cut).pRange == cut.pRange
  {
    var c2 := CutConj(CutConj(cut));
    assert c2.path == cut.path by {
      forall i | 0 <= i < |cut.path|
        ensures c2.path[i] == cut.path[i]
      {
        ConjInvolution(cut.path[i]);
      }
    }
    assert c2.visibility == cut.visibility by {
      forall i | 0 <= i < |cut.visibility|
        ensures c2.visibility[i] == cut.visibility[i]
      {
        ConditionConjInvolution(cut.visibility[i]);
      }
    }
    ComponentConjInvolution(cut.component);
    CutTypeConjInvolution(cut.typ);
  }

  /** Reflection in the horizontal line through dz. */
  function ReflectAt(z: C, dz: C): C { Add(Conj(Sub(z, dz)), dz) }

  /** The mirror image of a cut in the horizontal line through dz; the path keeps its direction. */
  function ShiftConj(cut: Cut, dz: C): Cut {
    Cut(cut.component.Conj(),
        seq(|cut.path|, i requires 0 <= i < |cut.path| => ReflectAt(cut.path[i], dz)),
        if cut.branchPoint.Some? then Some(ReflectAt(cut.branchPoint.value, dz)) else None,
        cut.typ.Conj(), cut.pRange, cut.periodic, ConjConditions(cut.visibility))
  }

  lemma ShiftConjInvolution(cut: Cut, dz: C)
    ensures ShiftConj(ShiftConj(cut, dz), dz) == cut
  {
    var c2 := ShiftConj(ShiftConj(cut, dz), dz);
    assert c2.path == cut.path;
    assert c2.visibility == cut.visibility by {
      forall i | 0 <= i < |cut.visibility|
        ensures c2.visibility[i] == cut.visibility[i]
      {
        ConditionConjInvolution(cut.visibility[i]);
      }
    }
    ComponentConjInvolution(cut.component);
    CutTypeConjInvolution(cut.typ);
  }

  /** The cut translated by dz. */
  function Translated(cut: Cut, dz: C): Cut {
    cut.(path := seq(|cut.path|, i requires 0 <= i < |cut.path| => Add(cut.path[i], dz)),
         branchPoint := if cut.branchPoint.Some? then Some(Add(cut.branchPoint.value, dz)) else None)
  }

  /** `Cut::shift`: moves every vertex of the path, and the branch point, by dz in place. */
  method Shift(cut: Cut, dz: C) returns (r: Cut)
    ensures |r.path| == |cut.path|
    ensures forall i :: 0 <= i < |cut.path| ==> r.path[i] == Add(cut.path[i], dz)
    ensures r.branchPoint.Some? <==> cut.branchPoint.Some?
    ensures r.branchPoint.Some? ==> r.branchPoint.value == Add(cut.branchPoint.value, dz)
    ensures r.(path := cut.path, branchPoint := cut.branchPoint) == cut
    ensures r == Translated(cut, dz)
  {
    var path := cut.path;
    var i := 0;
    while i < |path|
      invariant 0 <= i <= |path| == |cut.path|
      invariant forall j :: 0 <= j < i ==> path[j] == Add(cut.path[j], dz)
      invariant forall j :: i <= j < |path| ==> path[j] == cut.path[j]
    {
      path := path[i := Add(path[i], dz)];
      i := i + 1;
    }
    var bp := cut.branchPoint;
    if bp.Some? {
      bp := Some(Add(bp.value, dz));
    }
    r := cut.(path := path, branchPoint := bp);
  }

  lemma TranslatedInverse(cut: Cut, dz: C)
    ensures Translated(Translated(cut, dz), C(-dz.re, -dz.im)) == cut
  {
    var c2 := Translated(Translated(cut, dz), C(-dz.re, -dz.im));
    assert c2.path == cut.path;
  }

  /** Conjugating a translated cut is translating the conjugate by the conjugate shift. */
  lemma ConjTranslatedCommute(cut: Cut, dz: C)
    ensures CutConj(Translated(cut, dz)) == Translated(CutConj(cut), Conj(dz))
  {
    var a := CutConj(Translated(cut, dz));
    var b := Translated(CutConj(cut), Conj(dz));
    assert a.path == b.path;
  }

  /**
   * The parameter t at which the move p + t r meets the segment q1 q2, when
   * both parameters lie in [0, 1]; parallel segments never meet.
   */
  function SegmentHit(p: C, r: C, q1: C, q2: C): (h: Option<real>)
    ensures Cross(r, Sub(q2, q1)) == 0.0 ==> h.None?
  {
    var s := Sub(q2, q1);
    var d := Cross(r, s);
    if d != 0.0 then
      var t := Cross(Sub(q1, p), s) / d;
      var u := Cross(Sub(q1, p), r) / d;
      if 0.0 <= t <= 1.0 && 0.0 <= u <= 1.0 then Some(t) else None
    else
      None
  }

  /**
   * Every crossing of non-parallel segments is reported: when p + t r equals
   * q1 + u (q2 - q1) with t and u in [0, 1], the hit is found at that t.
   */
  lemma SegmentHitComplete(p: C, r: C, q1: C, q2: C, t: real, u: real)
    requires Cross(r, Sub(q2, q1)) != 0.0
    requires 0.0 <= t <= 1.0 && 0.0 <= u <= 1.0
    requires Add(p, Scale(t, r)) == Add(q1, Scale(u, Sub(q2, q1)))
    ensures SegmentHit(p, r, q1, q2) == Some(t)
  {
    var s := Sub(q2, q1);
    var w := Sub(q1, p);
    var d := Cross(r, s);
    assert w == C(t * r.re - u * s.re, t * r.im - u * s.im);
    CrossCombination(t, u, r, s);
    HitFromCrosses(p, r, q1, q2, t, u);
  }

  /** The parameters of a hit are the two cross-product quotients of `SegmentHit`. */
  lemma HitFromCrosses(p: C, r: C, q1: C, q2: C, t: real, u: real)
    requires Cross(r, Sub(q2, q1)) != 0.0
    requires 0.0 <= t <= 1.0 && 0.0 <= u <= 1.0
    requires Cross(Sub(q1, p), Sub(q2, q1)) == t * Cross(r, Sub(q2, q1))
    requires Cross(Sub(q1, p), r) == u * Cross(r, Sub(q2, q1))
    ensures SegmentHit(p, r, q1, q2) == Some(t)
  {
    var d := Cross(r, Sub(q2, q1));
    DivCancel(t, d);
    DivCancel(u, d);
    assert Cross(Sub(q1, p), Sub(q2, q1)) / d == t;
    assert Cross(Sub(q1, p), r) / d == u;
  }

  /** The cross products of t r - u s with s and with r. */
  lemma CrossCombination(t: real, u: real, r: C, s: C)
    ensures Cross(C(t * r.re - u * s.re, t * r.im - u * s.im), s) == t * Cross(r, s)
    ensures Cross(C(t * r.re - u * s.re, t * r.im - u * s.im), r) == u * Cross(r, s)
  {
    calc {
      Cross(C(t * r.re - u * s.re, t * r.im - u * s.im), s);
      (t * r.re - u * s.re) * s.im - (t * r.im - u * s.im) * s.re;
      t * (r.re * s.im - r.im * s.re);
    }
    calc {
      Cross(C(t * r.re - u * s.re, t * r.im - u * s.im), r);
      (t * r.re - u * s.re) * r.im - (t * r.im - u * s.im) * r.re;
      u * (r.re * s.im - r.im * s.re);
    }
  }

  lemma DivCancel(x: real, d: real)
    requires d != 0.0
    ensures (x * d) / d == x
  {
  }

  /** The point reported for a hit lies on both segments. */
  lemma SegmentHitOnBoth(p: C, r: C, q1: C, q2: C)
    requires SegmentHit(p, r, q1, q2).Some?
    ensures var t := SegmentHit(p, r, q1, q2).value;
      0.0 <= t <= 1.0 &&
      exists u: real :: 0.0 <= u <= 1.0 && Add(p, Scale(t, r)) == Add(q1, Scale(u, Sub(q2, q1)))
  {
    var s := Sub(q2, q1);
    var w := Sub(q1, p);
    var d := Cross(r, s);
    var t := Cross(w, s) / d;
    var u := Cross(w, r) / d;
    assert d * t == Cross(w, s);
    assert d * u == Cross(w, r);
    assert d * (t * r.re - u * s.re) == d * w.re by {
      calc {
        d * (t * r.re - u * s.re);
        (d * t) * r.re - (d * u) * s.re;
        Cross(w, s) * r.re - Cross(w, r) * s.re;
        (w.re * s.im - w.im * s.re) * r.re - (w.re * r.im - w.im * r.re) * s.re;
        w.re * (r.re * s.im - r.im * s.re);
        d * w.re;
      }
    }
    assert d * (t * r.im - u * s.im) == d * w.im by {
      calc {
        d * (t * r.im - u * s.im);
        (d * t) * r.im - (d * u) * s.im;
        Cross(w, s) * r.im - Cross(w, r) * s.im;
        (w.re * s.im - w.im * s.re) * r.im - (w.re * r.im - w.im * r.re) * s.im;
        w.im * (r.re * s.im - r.im * s.re);
        d * w.im;
      }
    }
    assert Add(p, Scale(t, r)) == Add(q1, Scale(u, s));
  }

  /** The first window of the path, from index j on, that the move p1 p2 crosses. */
  function FirstHit(path: seq<C>, p1: C, p2: C, j: nat): Option<Hit>
    decreases |path| - j
  {
    if j + 1 >= |path| then None
    else
      var r := Sub(p2, p1);
      match SegmentHit(p1, r, path[j], path[j + 1])
      case Some(t) => Some(Hit(j, Add(p1, Scale(t, r)), t))
      case None => FirstHit(path, p1, p2, j + 1)
  }

  lemma {:induction false} FirstHitIsFirst(path: seq<C>, p1: C, p2: C, j: nat)
    ensures var h := FirstHit(path, p1, p2, j);
      (h.None? <==> forall i :: j <= i < |path| - 1 ==> SegmentHit(p1, Sub(p2, p1), path[i], path[i + 1]).None?) &&
      (h.Some? ==>
        j <= h.value.index < |path| - 1 &&
        SegmentHit(p1, Sub(p2, p1), path[h.value.index], path[h.value.index + 1]) == Some(h.value.t) &&
        h.value.point == Add(p1, Scale(h.value.t, Sub(p2, p1))) &&
        forall i :: j <= i < h.value.index ==> SegmentHit(p1, Sub(p2, p1), path[i], path[i + 1]).None?)
    decreases |path| - j
  {
    if j + 1 < |path| && SegmentHit(p1, Sub(p2, p1), path[j], path[j + 1]).None? {
      FirstHitIsFirst(path, p1, p2, j + 1);
    }
  }

  /** `Cut::find_intersection`: scans the windows of the path and returns the first hit. */
  method FindIntersection(cut: Cut, p1: C, p2: C) returns (hit: Option<Hit>)
    ensures hit == FirstHit(cut.path, p1, p2, 0)
    ensures hit.Some? ==> hit.value.index < |cut.path| - 1 && 0.0 <= hit.value.t <= 1.0
  {
    var r := Sub(p2, p1);
    var j := 0;
    while j + 1 < |cut.path|
      invariant FirstHit(cut.path, p1, p2, 0) == FirstHit(cut.path, p1, p2, j)
    {
      var s := SegmentHit(p1, r, cut.path[j], cut.path[j + 1]);
      if s.Some? {
        return Some(Hit(j, Add(p1, Scale(s.value, r)), s.value));
      }
      j := j + 1;
    }
    return None;
  }

  /** The vertical period 2ik/h of periodic cuts, times n. */
  function PeriodShift(consts: Consts, n: int): C {
    C(0.0, n as real * (2.0 * consts.k as real / consts.h))
  }

  /** The first hit of the move shifted by n periods. */
  function HitUnder(cut: Cut, p1: C, p2: C, consts: Consts, n: int): Option<Hit> {
    FirstHit(cut.path, Add(p1, PeriodShift(consts, n)), Add(p2, PeriodShift(consts, n)), 0)
  }

  /** The first shift n..5 under which the move meets the cut. */
  function PeriodicHit(cut: Cut, p1: C, p2: C, consts: Consts, n: int): Option<Hit>
    decreases 6 - n
  {
    if n > 5 then None
    else
      var h := HitUnder(cut, p1, p2, consts, n);
      if h.Some? then h else PeriodicHit(cut, p1, p2, consts, n + 1)
  }

  lemma {:induction false} PeriodicHitIsFirst(cut: Cut, p1: C, p2: C, consts: Consts, n: int)
    requires n <= 6
    ensures PeriodicHit(cut, p1, p2, consts, n).Some? <==>
      (exists m :: n <= m <= 5 && HitUnder(cut, p1, p2, consts, m).Some?)
    ensures PeriodicHit(cut, p1, p2, consts, n).Some? ==>
      (exists m :: n <= m <= 5 && PeriodicHit(cut, p1, p2, consts, n) == HitUnder(cut, p1, p2, consts, m) &&
         forall l :: n <= l < m ==> HitUnder(cut, p1, p2, consts, l).None?)
    decreases 6 - n
  {
    if n <= 5 && HitUnder(cut, p1, p2, consts, n).None? {
      PeriodicHitIsFirst(cut, p1, p2, consts, n + 1);
      var h := PeriodicHit(cut, p1, p2, consts, n);
      if h.Some? {
        var m :| n + 1 <= m <= 5 && h == HitUnder(cut, p1, p2, consts, m) &&
          forall l :: n + 1 <= l < m ==> HitUnder(cut, p1, p2, consts, l).None?;
        assert forall l :: n <= l < m ==> HitUnder(cut, p1, p2, consts, l).None?;
      }
    }
  }

  /**
   * `Cut::intersection`: a periodic cut is tried under the shifts n times the
   * period for n = -5..5 in order; any other cut only unshifted.
   */
  method Intersection(cut: Cut, p1: C, p2: C, consts: Consts) returns (hit: Option<Hit>)
    ensures cut.periodic ==> hit == PeriodicHit(cut, p1, p2, consts, -5)
    ensures !cut.periodic ==> hit == FirstHit(cut.path, p1, p2, 0)
  {
    if cut.periodic {
      var n := -5;
      while n <= 5
        invariant -5 <= n <= 6
        invariant PeriodicHit(cut, p1, p2, consts, -5) == PeriodicHit(cut, p1, p2, consts, n)
      {
        var shift := PeriodShift(consts, n);
        hit := FindIntersection(cut, Add(p1, shift), Add(p2, shift));
        if hit.Some? {
          return;
        }
        n := n + 1;
      }
      return None;
    } else {
      hit := FindIntersection(cut, p1, p2);
    }
  }

  /** Every condition of the list holds at the point. */
  function AllHold(conds: seq<Condition>, pt: Point): (b: bool)
    ensures b <==> forall i :: 0 <= i < |conds| ==> conds[i].Check(pt)
  {
    if conds == [] then true else conds[0].Check(pt) && AllHold(conds[1..], pt)
  }

  /** `Cut::is_visible`: all visibility conditions hold; a cut without conditions is always visible. */
  function IsVisible(cut: Cut, pt: Point): (b: bool)
    ensures b <==> forall v :: v in cut.visibility ==> v.Check(pt)
    ensures cut.visibility == [] ==> b
  {
    AllHold(cut.visibility, pt)
  }
}
