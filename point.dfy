/**
 * A point of the `pxu` crate: how it is created, how crossing cuts changes
 * its sheet, how a move is accepted, and when two sheets count as the same.
 */
module PointModel {
  import opened Complex
  import opened Wrappers
  import opened Kinematics
  import opened CutModel

  /** `Point::new`: a point on the sheet picked by the integer part of Re p. */
  function NewPoint(p: C, kin: Kin): (pt: Point)
    ensures pt.p == p && pt.xp == kin.xp(p) && pt.xm == kin.xm(p)
    ensures pt.u == kin.u(p, pt.sheetData)
    ensures pt.sheetData.logBranchP == 0
    ensures pt.sheetData.logBranchM == SaturateI32(p.re.Floor)
    ensures pt.sheetData.eBranch == 1 && pt.sheetData.imXSign == (1, 1)
    ensures pt.sheetData.uBranch.0 == pt.sheetData.uBranch.1
    ensures pt.sheetData.uBranch.0 == Outside <==> pt.sheetData.logBranchM >= 0
    ensures pt.sheetData.uBranch.0 == Between <==> pt.sheetData.logBranchM == -1
    ensures pt.sheetData.uBranch.0 == Inside <==> pt.sheetData.logBranchM < -1
  {
    var lbm := SaturateI32(p.re.Floor);
    var ub := if lbm >= 0 then Outside else if lbm == -1 then Between else Inside;
    var sd := SheetData(0, lbm, 1, (ub, ub), (1, 1));
    Point(p, kin.xp(p), kin.xm(p), kin.u(p, sd), sd)
  }

  /** `Point::get`: the coordinate of the point in a plane. */
  function Get(pt: Point, c: Component): (v: C)
    ensures c == P ==> v == pt.p
    ensures c == U ==> v == pt.u
    ensures c == Xp ==> v == pt.xp
    ensures c == Xm ==> v == pt.xm
  {
    match c
    case P => pt.p
    case U => pt.u
    case Xp => pt.xp
    case Xm => pt.xm
  }

  /**
   * The sheet after crossing one cut of the given type. The direction in which
   * a log cut is crossed is read off Im x+ and Im x- of the point before the move.
   */
  function CrossCut(sd: SheetData, typ: CutType, pt: Point, kin: Kin): SheetData {
    match typ
    case E => sd.(eBranch := -sd.eBranch)
    case UShortScallion(Xp) => sd.(uBranch := (kin.crossScallion(sd.uBranch.0), sd.uBranch.1))
    case UShortScallion(Xm) => sd.(uBranch := (sd.uBranch.0, kin.crossScallion(sd.uBranch.1)))
    case UShortKidney(Xp) => sd.(uBranch := (kin.crossKidney(sd.uBranch.0), sd.uBranch.1))
    case UShortKidney(Xm) => sd.(uBranch := (sd.uBranch.0, kin.crossKidney(sd.uBranch.1)))
    case Log(Xp) => sd.(logBranchP := if pt.xp.im >= 0.0 then sd.logBranchP + 1 else sd.logBranchP - 1)
    case Log(Xm) => sd.(logBranchM := if pt.xm.im <= 0.0 then sd.logBranchM + 1 else sd.logBranchM - 1)
    case ULongPositive(Xp) => sd.(imXSign := (-sd.imXSign.0, sd.imXSign.1))
    case ULongPositive(Xm) => sd.(imXSign := (sd.imXSign.0, -sd.imXSign.1))
    case _ => sd
  }

  /** The sheet of the point after crossing the given cuts in order. */
  function CrossAll(pt: Point, cuts: seq<Cut>, kin: Kin): SheetData {
    if cuts == [] then pt.sheetData
    else CrossCut(CrossAll(pt, cuts[..|cuts| - 1], kin), cuts[|cuts| - 1].typ, pt, kin)
  }

  /** Crossing an E cut twice gives back the sheet. */
  lemma CrossETwice(sd: SheetData, pt: Point, kin: Kin)
    ensures CrossCut(CrossCut(sd, E, pt, kin), E, pt, kin) == sd
    ensures CrossCut(sd, E, pt, kin).eBranch == -sd.eBranch
  {
  }

  /** What each kind of cut changes, and that it changes nothing else. */
  lemma CrossCutFrame(sd: SheetData, typ: CutType, pt: Point, kin: Kin)
    ensures var r := CrossCut(sd, typ, pt, kin);
      (r.eBranch != sd.eBranch ==> typ == E) &&
      (r.uBranch.0 != sd.uBranch.0 ==> typ in {UShortScallion(Xp), UShortKidney(Xp)}) &&
      (r.uBranch.1 != sd.uBranch.1 ==> typ in {UShortScallion(Xm), UShortKidney(Xm)}) &&
      (r.logBranchP != sd.logBranchP ==> typ == Log(Xp)) &&
      (r.logBranchM != sd.logBranchM ==> typ == Log(Xm)) &&
      (r.imXSign.0 != sd.imXSign.0 ==> typ == ULongPositive(Xp)) &&
      (r.imXSign.1 != sd.imXSign.1 ==> typ == ULongPositive(Xm))
    ensures typ.ULongNegative? || typ.DebugPath? ==> CrossCut(sd, typ, pt, kin) == sd
    ensures !typ.E? && !typ.DebugPath? && typ.component in {P, U} ==> CrossCut(sd, typ, pt, kin) == sd
    ensures typ == Log(Xp) ==>
      CrossCut(sd, typ, pt, kin).logBranchP == sd.logBranchP + (if pt.xp.im >= 0.0 then 1 else -1)
    ensures typ == Log(Xm) ==>
      CrossCut(sd, typ, pt, kin).logBranchM == sd.logBranchM + (if pt.xm.im <= 0.0 then 1 else -1)
    ensures typ.ULongPositive? && typ.component in {Xp, Xm} ==>
      CrossCut(CrossCut(sd, typ, pt, kin), typ, pt, kin) == sd
  {
  }

  function Count(cuts: seq<Cut>, typ: CutType): nat {
    if cuts == [] then 0
    else Count(cuts[..|cuts| - 1], typ) + (if cuts[|cuts| - 1].typ == typ then 1 else 0)
  }

  /**
   * Over one update all log cuts of a plane are crossed in the same
   * direction, so the log branches move by the number of such cuts.
   */
  lemma {:induction false} CrossAllLogCounts(pt: Point, cuts: seq<Cut>, kin: Kin)
    ensures CrossAll(pt, cuts, kin).logBranchP ==
      pt.sheetData.logBranchP + Count(cuts, Log(Xp)) * (if pt.xp.im >= 0.0 then 1 else -1)
    ensures CrossAll(pt, cuts, kin).logBranchM ==
      pt.sheetData.logBranchM + Count(cuts, Log(Xm)) * (if pt.xm.im <= 0.0 then 1 else -1)
  {
    if cuts != [] {
      CrossAllLogCounts(pt, cuts[..|cuts| - 1], kin);
    }
  }

  /** The E branch and the long-cut signs flip once per cut of their kind. */
  lemma CrossAllSignCounts(pt: Point, cuts: seq<Cut>, kin: Kin)
    ensures CrossAll(pt, cuts, kin).eBranch ==
      (if Count(cuts, E) % 2 == 0 then pt.sheetData.eBranch else -pt.sheetData.eBranch)
    ensures CrossAll(pt, cuts, kin).imXSign.0 ==
      (if Count(cuts, ULongPositive(Xp)) % 2 == 0 then pt.sheetData.imXSign.0 else -pt.sheetData.imXSign.0)
    ensures CrossAll(pt, cuts, kin).imXSign.1 ==
      (if Count(cuts, ULongPositive(Xm)) % 2 == 0 then pt.sheetData.imXSign.1 else -pt.sheetData.imXSign.1)
  {
    CrossAllECount(pt, cuts, kin);
    CrossAllXpSignCount(pt, cuts, kin);
    CrossAllXmSignCount(pt, cuts, kin);
  }

  lemma {:induction false} CrossAllECount(pt: Point, cuts: seq<Cut>, kin: Kin)
    ensures CrossAll(pt, cuts, kin).eBranch ==
      (if Count(cuts, E) % 2 == 0 then pt.sheetData.eBranch else -pt.sheetData.eBranch)
  {
    if cuts != [] {
      CrossAllECount(pt, cuts[..|cuts| - 1], kin);
    }
  }

  lemma {:induction false} CrossAllXpSignCount(pt: Point, cuts: seq<Cut>, kin: Kin)
    ensures CrossAll(pt, cuts, kin).imXSign.0 ==
      (if Count(cuts, ULongPositive(Xp)) % 2 == 0 then pt.sheetData.imXSign.0 else -pt.sheetData.imXSign.0)
  {
    if cuts != [] {
      CrossAllXpSignCount(pt, cuts[..|cuts| - 1], kin);
    }
  }

  lemma {:induction false} CrossAllXmSignCount(pt: Point, cuts: seq<Cut>, kin: Kin)
    ensures CrossAll(pt, cuts, kin).imXSign.1 ==
      (if Count(cuts, ULongPositive(Xm)) % 2 == 0 then pt.sheetData.imXSign.1 else -pt.sheetData.imXSign.1)
  {
    if cuts != [] {
      CrossAllXmSignCount(pt, cuts[..|cuts| - 1], kin);
    }
  }

  /** Cuts that do not concern a u branch leave it as it was. */
  lemma {:induction false} CrossAllKeepsUBranch(pt: Point, cuts: seq<Cut>, kin: Kin)
    ensures (forall i :: 0 <= i < |cuts| ==> cuts[i].typ !in {UShortScallion(Xp), UShortKidney(Xp)}) ==>
      CrossAll(pt, cuts, kin).uBranch.0 == pt.sheetData.uBranch.0
    ensures (forall i :: 0 <= i < |cuts| ==> cuts[i].typ !in {UShortScallion(Xm), UShortKidney(Xm)}) ==>
      CrossAll(pt, cuts, kin).uBranch.1 == pt.sheetData.uBranch.1
  {
    if cuts != [] {
      CrossAllKeepsUBranch(pt, cuts[..|cuts| - 1], kin);
      CrossCutFrame(CrossAll(pt, cuts[..|cuts| - 1], kin), cuts[|cuts| - 1].typ, pt, kin);
    }
  }

  /** The guards of `Point::shifted` that refuse a new p. */
  predicate Rejected(old_p: C, p: C) {
    var d := Sub(old_p, p);
    Abs(d.re) > 0.125 || Abs(d.im) > 0.25 || NormSqr(Sub(p, Real(Round(p.re) as real))) < 0.005 * 0.005
  }

  /**
   * `Point::shifted`: the point moved to p on the given sheet, unless p is
   * missing, jumps too far, or comes too close to an integer. Jumps of x+,
   * x- and u are never a reason to refuse.
   */
  function Shifted(pt: Point, p: Option<C>, sd: SheetData, kin: Kin): (r: Option<Point>)
    ensures r.Some? <==> p.Some? && !Rejected(pt.p, p.value)
    ensures r.Some? ==> r.value.p == p.value && r.value.sheetData == sd
    ensures r.Some? ==> r.value.xp == kin.xpOnSheet(p.value, sd) && r.value.xm == kin.xmOnSheet(p.value, sd)
    ensures r.Some? ==> r.value.u == kin.u(p.value, sd)
  {
    if p.None? then None
    else
      var q := p.value;
      var d := Sub(pt.p, q);
      if Abs(d.re) > 0.125 || Abs(d.im) > 0.25 then None
      else if NormSqr(Sub(q, Real(Round(q.re) as real))) < 0.005 * 0.005 then None
      else Some(Point(q, kin.xpOnSheet(q, sd), kin.xmOnSheet(q, sd), kin.u(q, sd), sd))
  }

  /** Only p of the old point matters to `shifted`: its x+, x-, u and sheet do not. */
  lemma ShiftedIgnoresOldCoordinates(a: Point, b: Point, p: Option<C>, sd: SheetData, kin: Kin)
    requires a.p == b.p
    ensures Shifted(a, p, sd, kin) == Shifted(b, p, sd, kin)
  {
  }

  /** The starting guesses of the root finder, in the order they are tried. */
  function Guesses(p: C): seq<C> {
    [p, Sub(p, Real(0.01)), Add(p, Real(0.01)), Sub(p, Real(0.05)), Add(p, Real(0.05)),
     Sub(p, Real(0.1)), Add(p, Real(0.1))]
  }

  /** The candidate p for one guess: the new value itself for P, else a root of the plane's map. */
  function CandidateP(comp: Component, value: C, sd: SheetData, guess: C, kin: Kin): Option<C> {
    if comp == P then Some(value) else kin.findRoot(comp, value, sd, guess)
  }

  /** The accepted candidates, in guess order (the `filter_map`). */
  function Candidates(pt: Point, comp: Component, value: C, sd: SheetData, gs: seq<C>, kin: Kin): seq<Point> {
    if gs == [] then []
    else
      var prev := Candidates(pt, comp, value, sd, gs[..|gs| - 1], kin);
      var c := Shifted(pt, CandidateP(comp, value, sd, gs[|gs| - 1], kin), sd, kin);
      if c.Some? then prev + [c.value] else prev
  }

  /** The rounded, saturated distance key that ranks candidates. */
  function Key(pt: Point, cand: Point): int {
    SaturateI32(Round((NormSqr(Sub(cand.xp, pt.xp)) + NormSqr(Sub(cand.xm, pt.xm))) * 10000.0))
  }

  /** `min_by_key`: the first element with the smallest key. */
  function FirstMin<T>(key: T -> int, xs: seq<T>): Option<T> {
    if xs == [] then None
    else
      var best := FirstMin(key, xs[..|xs| - 1]);
      var last := xs[|xs| - 1];
      if best.None? || key(last) < key(best.value) then Some(last) else best
  }

  /** The element found is one of least key, and every element before it has a larger key. */
  predicate IsFirstMinimum<T>(key: T -> int, xs: seq<T>, i: int) {
    0 <= i < |xs| &&
    (forall j :: 0 <= j < |xs| ==> key(xs[i]) <= key(xs[j])) &&
    (forall j :: 0 <= j < i ==> key(xs[i]) < key(xs[j]))
  }

  lemma {:induction false} FirstMinIsFirstMinimum<T>(key: T -> int, xs: seq<T>)
    ensures FirstMin(key, xs).None? <==> xs == []
    ensures FirstMin(key, xs).Some? ==>
      (exists i :: IsFirstMinimum(key, xs, i) && xs[i] == FirstMin(key, xs).value)
  {
    if xs != [] {
      var init := xs[..|xs| - 1];
      FirstMinIsFirstMinimum(key, init);
      var best := FirstMin(key, init);
      var last := xs[|xs| - 1];
      if best.None? || key(last) < key(best.value) {
        var i := |xs| - 1;
        if best.Some? {
          var k :| IsFirstMinimum(key, init, k) && init[k] == best.value;
        }
        assert IsFirstMinimum(key, xs, i) by {
          forall j | 0 <= j < i ensures key(xs[i]) < key(xs[j]) {
            assert xs[j] == init[j];
          }
        }
      } else {
        var k :| IsFirstMinimum(key, init, k) && init[k] == best.value;
        assert IsFirstMinimum(key, xs, k) by {
          forall j | 0 <= j < |xs| ensures key(xs[k]) <= key(xs[j]) {
            if j < |init| { assert xs[j] == init[j]; }
          }
          forall j | 0 <= j < k ensures key(xs[k]) < key(xs[j]) {
            assert xs[j] == init[j];
          }
        }
      }
    }
  }

  /** What `Point::update` makes of the point: None when no guess is accepted. */
  function UpdateResult(pt: Point, comp: Component, value: C, cuts: seq<Cut>, kin: Kin): Option<Point> {
    var sd := CrossAll(pt, cuts, kin);
    FirstMin(c => Key(pt, c), Candidates(pt, comp, value, sd, Guesses(pt.p), kin))
  }

  lemma {:induction false} CandidatesOnSheet(pt: Point, comp: Component, value: C, sd: SheetData, gs: seq<C>, kin: Kin)
    ensures forall c :: c in Candidates(pt, comp, value, sd, gs, kin) ==> c.sheetData == sd && !Rejected(pt.p, c.p)
    ensures comp == P ==> forall c :: c in Candidates(pt, comp, value, sd, gs, kin) ==> c.p == value
  {
    if gs != [] {
      CandidatesOnSheet(pt, comp, value, sd, gs[..|gs| - 1], kin);
    }
  }

  /** An accepted update lands on the sheet reached by crossing the cuts, within the jump bounds. */
  lemma UpdateResultSheet(pt: Point, comp: Component, value: C, cuts: seq<Cut>, kin: Kin)
    ensures var r := UpdateResult(pt, comp, value, cuts, kin);
      r.Some? ==> (r.value.sheetData == CrossAll(pt, cuts, kin) && !Rejected(pt.p, r.value.p) &&
                   (comp == P ==> r.value.p == value))
  {
    var sd := CrossAll(pt, cuts, kin);
    var cands := Candidates(pt, comp, value, sd, Guesses(pt.p), kin);
    FirstMinIsFirstMinimum(c => Key(pt, c), cands);
    CandidatesOnSheet(pt, comp, value, sd, Guesses(pt.p), kin);
  }

  /** Moving in the p plane succeeds exactly when the new p passes the guards of `shifted`. */
  lemma UpdatePSucceeds(pt: Point, value: C, cuts: seq<Cut>, kin: Kin)
    ensures UpdateResult(pt, P, value, cuts, kin).Some? <==> !Rejected(pt.p, value)
  {
    var sd := CrossAll(pt, cuts, kin);
    CandidatesUniform(pt, value, sd, Guesses(pt.p), kin);
    FirstMinIsFirstMinimum(c => Key(pt, c), Candidates(pt, P, value, sd, Guesses(pt.p), kin));
  }

  /** For the p plane every guess gives the same candidate. */
  lemma {:induction false} CandidatesUniform(pt: Point, value: C, sd: SheetData, gs: seq<C>, kin: Kin)
    ensures var c := Shifted(pt, Some(value), sd, kin);
      Candidates(pt, P, value, sd, gs, kin) == (if c.Some? then seq(|gs|, _ => c.value) else [])
  {
    if gs != [] {
      CandidatesUniform(pt, value, sd, gs[..|gs| - 1], kin);
    }
  }

  /** The crossing loop of `Point::update`: the sheet after crossing the cuts in order. */
  method CrossCuts(pt: Point, cuts: seq<Cut>, kin: Kin) returns (sd: SheetData)
    ensures sd == CrossAll(pt, cuts, kin)
  {
    sd := pt.sheetData;
    for i := 0 to |cuts|
      invariant sd == CrossAll(pt, cuts[..i], kin)
    {
      assert cuts[..i + 1][..i] == cuts[..i];
      sd := CrossCut(sd, cuts[i].typ, pt, kin);
    }
    assert cuts[..|cuts|] == cuts;
  }

  /**
   * `Point::update`: crosses the cuts to find the new sheet, tries every
   * guess, and moves the point to the best accepted candidate. When no guess
   * is accepted the point is left as it was.
   */
  method Update(pt: Point, comp: Component, value: C, cuts: seq<Cut>, kin: Kin) returns (ok: bool, r: Point)
    ensures ok == UpdateResult(pt, comp, value, cuts, kin).Some?
    ensures !ok ==> r == pt
    ensures ok ==> r == UpdateResult(pt, comp, value, cuts, kin).value
    ensures ok ==> r.sheetData == CrossAll(pt, cuts, kin) && !Rejected(pt.p, r.p)
  {
    var sd := CrossCuts(pt, cuts, kin);
    var best := BestCandidate(pt, comp, value, sd, Guesses(pt.p), kin);
    UpdateResultSheet(pt, comp, value, cuts, kin);
    if best.Some? {
      ok, r := true, best.value;
    } else {
      ok, r := false, pt;
    }
  }

  /** The guess loop of `Point::update`: the first accepted candidate of least key, over the guesses in order. */
  method BestCandidate(pt: Point, comp: Component, value: C, sd: SheetData, gs: seq<C>, kin: Kin) returns (best: Option<Point>)
    ensures best == FirstMin(c => Key(pt, c), Candidates(pt, comp, value, sd, gs, kin))
  {
    best := None;
    ghost var cands: seq<Point> := [];
    for i := 0 to |gs|
      invariant cands == Candidates(pt, comp, value, sd, gs[..i], kin)
      invariant best == FirstMin(c => Key(pt, c), cands)
    {
      var p := if comp == P then Some(value) else kin.findRoot(comp, value, sd, gs[i]);
      var cand := Shifted(pt, p, sd, kin);
      CandidatesStep(pt, comp, value, sd, gs, i, kin);
      if cand.Some? {
        FirstMinSnoc(c => Key(pt, c), cands, cand.value);
        cands := cands + [cand.value];
        if best.None? || Key(pt, cand.value) < Key(pt, best.value) {
          best := cand;
        }
      }
    }
    assert gs[..|gs|] == gs;
  }

  /** One more guess adds its candidate, when it is accepted, at the end. */
  lemma CandidatesStep(pt: Point, comp: Component, value: C, sd: SheetData, gs: seq<C>, i: nat, kin: Kin)
    requires i < |gs|
    ensures var cand := Shifted(pt, CandidateP(comp, value, sd, gs[i], kin), sd, kin);
      Candidates(pt, comp, value, sd, gs[..i + 1], kin) ==
        Candidates(pt, comp, value, sd, gs[..i], kin) + (if cand.Some? then [cand.value] else [])
  {
    assert gs[..i + 1][..i] == gs[..i];
  }

  /** One more element replaces the minimum only when its key is strictly smaller. */
  lemma FirstMinSnoc<T>(key: T -> int, xs: seq<T>, x: T)
    ensures var b := FirstMin(key, xs);
      FirstMin(key, xs + [x]) == if b.None? || key(x) < key(b.value) then Some(x) else b
  {
    assert (xs + [x])[..|xs|] == xs;
  }

  /** `SheetData::is_same`: whether two sheets look the same in a plane. */
  predicate IsSame(sd1: SheetData, sd2: SheetData, comp: Component) {
    match comp
    case P => sd1.eBranch == sd2.eBranch
    case U =>
      if sd1.uBranch == sd2.uBranch && (sd1.uBranch.0 == Between || sd1.uBranch.1 == Between) then true
      else if sd1.logBranchP + sd1.logBranchM != sd2.logBranchP + sd2.logBranchM
           || sd1.logBranchP - sd1.logBranchM != sd2.logBranchP - sd2.logBranchM then false
      else sd1.uBranch == sd2.uBranch
    case Xp =>
      if sd1.uBranch.1 == Between && sd2.uBranch.1 == Between then true
      else if sd1.uBranch.1 == sd2.uBranch.1 && (sd1.uBranch.0 == Between || sd2.uBranch.0 == Between) then
        sd1.logBranchP == sd2.logBranchP
      else if sd1.logBranchP + sd1.logBranchM != sd2.logBranchP + sd2.logBranchM then false
      else sd1.uBranch.1 == sd2.uBranch.1
    case Xm =>
      if sd1.uBranch.0 == Between && sd2.uBranch.0 == Between then true
      else if sd1.uBranch.0 == sd2.uBranch.0 && (sd1.uBranch.1 == Between || sd2.uBranch.1 == Between) then
        sd1.logBranchM == sd2.logBranchM
      else if sd1.logBranchP + sd1.logBranchM != sd2.logBranchP + sd2.logBranchM then false
      else sd1.uBranch.0 == sd2.uBranch.0
  }

  lemma IsSameReflexiveSymmetric(sd1: SheetData, sd2: SheetData, comp: Component)
    ensures IsSame(sd1, sd1, comp)
    ensures IsSame(sd1, sd2, comp) == IsSame(sd2, sd1, comp)
    ensures comp == P ==> (IsSame(sd1, sd2, comp) <==> sd1.eBranch == sd2.eBranch)
  {
  }

  /** In the u plane sameness is also transitive. */
  lemma IsSameUTransitive(sd1: SheetData, sd2: SheetData, sd3: SheetData)
    requires IsSame(sd1, sd2, U) && IsSame(sd2, sd3, U)
    ensures IsSame(sd1, sd3, U)
  {
  }

  /** The sheet seen from the other x plane: log branches and u branches swapped. */
  function Mirror(sd: SheetData): SheetData {
    SheetData(sd.logBranchM, sd.logBranchP, sd.eBranch, (sd.uBranch.1, sd.uBranch.0), (sd.imXSign.1, sd.imXSign.0))
  }

  /** The x- rule is the x+ rule applied to the mirrored sheets. */
  lemma IsSameXmMirrorsXp(sd1: SheetData, sd2: SheetData)
    ensures IsSame(sd1, sd2, Xm) == IsSame(Mirror(sd1), Mirror(sd2), Xp)
  {
  }

  /** `Point::same_sheet`: the sheets of the two points look the same in the plane. */
  predicate SameSheet(a: Point, b: Point, comp: Component)
    ensures a.sheetData == b.sheetData ==> SameSheet(a, b, comp)
  {
    IsSameReflexiveSymmetric(a.sheetData, b.sheetData, comp);
    IsSame(a.sheetData, b.sheetData, comp)
  }
}
