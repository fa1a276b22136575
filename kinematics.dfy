/**
 * The data shared by the sheet-tracking code of the `pxu` crate: the four
 * planes a point is shown in, the discrete sheet record, a point with its
 * coordinates, and the numerical maps that the model treats as given.
 */
module Kinematics {
  import opened Complex
  import opened Wrappers

  /** The four planes in which a point can be moved: p, x+, x- and u. */
  datatype Component = P | Xp | Xm | U {
    /** Complex conjugation swaps the two x planes and fixes the others. */
    function Conj(): Component {
      match this
      case P => P
      case Xp => Xm
      case Xm => Xp
      case U => U
    }
  }

  lemma ComponentConjInvolution(c: Component)
    ensures c.Conj().Conj() == c
    ensures c.Conj() == c <==> c == P || c == U
  {
  }

  /** Position of u relative to the short u cuts. */
  datatype UBranch = Outside | Between | Inside

  /**
   * The discrete record that says which sheet a point is on: the branches of
   * the logarithms in x+ and x-, the sign of the energy, the u branches seen
   * from x+ and from x-, and the signs of Im x+/- across the long u cuts.
   */
  datatype SheetData = SheetData(
    logBranchP: int,
    logBranchM: int,
    eBranch: int,
    uBranch: (UBranch, UBranch),
    imXSign: (int, int))

  /** The coupling constants: a positive real h and an integer k. */
  datatype CouplingConstants = CouplingConstants(h: real, k: int)

  type Consts = c: CouplingConstants | c.h > 0.0 witness CouplingConstants(1.0, 0)

  /** A point with its coordinate in each plane and the sheet it lies on. */
  datatype Point = Point(p: C, xp: C, xm: C, u: C, sheetData: SheetData)

  /**
   * The numerical side of the kinematics for one choice of coupling
   * constants, given rather than computed: x+ and x- on the physical sheet,
   * x+ / x- / u on a given sheet, Newton's root finder used to invert them
   * (component, target value, sheet, starting guess; it may fail), the
   * energy of a point, and the crossing maps of the short u cuts.
   */
  datatype Kin = Kin(
    xp: C -> C,
    xm: C -> C,
    xpOnSheet: (C, SheetData) -> C,
    xmOnSheet: (C, SheetData) -> C,
    u: (C, SheetData) -> C,
    findRoot: (Component, C, SheetData, C) -> Option<C>,
    en: Point -> C,
    crossScallion: UBranch -> UBranch,
    crossKidney: UBranch -> UBranch)
}
