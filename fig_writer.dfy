/**
 * The figure writer of the `latex-figures` tool: the visible window of a
 * figure, the cropping of contours to (an enlarged copy of) that window,
 * the pgfplots lines written for a contour, the splitting of a path into
 * runs drawn straight or dotted, and the lookup of arrow positions along a
 * path.
 */
module FigWriter {
  import opened Wrappers
  import opened Complex
  import opened Kinematics
  import opened PointModel
  import opened Text

  /** A half-open range `start..end` of `f64`. */
  datatype Range = Range(start: real, end: real)

  /** The window of a figure. */
  datatype Bounds = Bounds(x: Range, y: Range)

  function Width(b: Bounds): real { b.x.end - b.x.start }

  function Height(b: Bounds): real { b.y.end - b.y.start }

  /** `Range::contains`: start <= v < end. */
  predicate InRange(r: Range, v: real) { r.start <= v < r.end }

  /** `Bounds::inside`. */
  predicate Inside(b: Bounds, z: C) { InRange(b.x, z.re) && InRange(b.y, z.im) }

  /** `Bounds::crosses`: the segment passes from one side of the window to the opposite side. */
  predicate Crosses(b: Bounds, z1: C, z2: C) {
    (z1.re < b.x.start && z2.re > b.x.end) || (z2.re < b.x.start && z1.re > b.x.end) ||
    (z1.im < b.y.start && z2.im > b.y.end) || (z2.im < b.y.start && z1.im > b.y.end)
  }

  /** Widens a range by 1.1 times its width on both sides. */
  function ExpandRange(r: Range): (e: Range)
    ensures e.end - e.start == 3.2 * (r.end - r.start)
    ensures e.start + e.end == r.start + r.end
  {
    var d := 1.1 * (r.end - r.start);
    Range(r.start - d, r.end + d)
  }

  /** `Bounds::expand`: the window three point two times as wide and high, around the same centre. */
  function Expand(b: Bounds): (e: Bounds)
    ensures Width(e) == 3.2 * Width(b) && Height(e) == 3.2 * Height(b)
    ensures e.x.start + e.x.end == b.x.start + b.x.end && e.y.start + e.y.end == b.y.start + b.y.end
  {
    Bounds(ExpandRange(b.x), ExpandRange(b.y))
  }

  /** A point inside a window with non-negative sides is inside the expanded window. */
  lemma ExpandContains(b: Bounds, z: C)
    requires Width(b) >= 0.0 && Height(b) >= 0.0
    ensures Inside(b, z) ==> Inside(Expand(b), z)
  {
  }

  /** A segment that crosses the window has neither end inside it, and crossing does not depend on the direction. */
  lemma CrossesOutside(b: Bounds, z1: C, z2: C)
    ensures Crosses(b, z1, z2) ==> !Inside(b, z1) && !Inside(b, z2)
    ensures Crosses(b, z1, z2) == Crosses(b, z2, z1)
  {
  }

  /** The `include` test of `crop`: after the vertical shift, an end is inside or the segment crosses. */
  predicate Include(b: Bounds, yShift: real, z1: C, z2: C) {
    var w1 := Add(z1, C(0.0, yShift));
    var w2 := Add(z2, C(0.0, yShift));
    Inside(b, w1) || Inside(b, w2) || Crosses(b, w1, w2)
  }

  /** Whether `crop` keeps vertex i: one of the segments that meet at it is included. */
  predicate KeepAt(b: Bounds, yShift: real, s: seq<C>, i: int)
    requires 2 <= |s| && 0 <= i < |s|
  {
    (i == 0 && Include(b, yShift, s[0], s[1])) ||
    (0 < i < |s| - 1 && (Include(b, yShift, s[i - 1], s[i]) || Include(b, yShift, s[i], s[i + 1]))) ||
    (i == |s| - 1 && Include(b, yShift, s[i - 1], s[i]))
  }

  /** The kept vertices among the first m, in order. */
  function Kept(b: Bounds, yShift: real, s: seq<C>, m: nat): seq<C>
    requires 2 <= |s| && m <= |s|
  {
    if m == 0 then []
    else Kept(b, yShift, s, m - 1) + (if KeepAt(b, yShift, s, m - 1) then [s[m - 1]] else [])
  }

  /** `crop` as a function: nothing for fewer than two vertices, else the kept vertices. */
  function Cropped(b: Bounds, yShift: real, s: seq<C>): seq<C> {
    if |s| < 2 then [] else Kept(Expand(b), yShift, s, |s|)
  }

  /** r can be obtained from s by deleting elements. */
  ghost predicate IsSubsequence<T>(r: seq<T>, s: seq<T>) {
    if r == [] then true
    else if s == [] then false
    else if r[|r| - 1] == s[|s| - 1] then IsSubsequence(r[..|r| - 1], s[..|s| - 1])
    else IsSubsequence(r, s[..|s| - 1])
  }

  lemma {:induction false} SubsequenceShorter<T>(r: seq<T>, s: seq<T>)
    requires IsSubsequence(r, s)
    ensures |r| <= |s|
  {
    if r != [] {
      if r[|r| - 1] == s[|s| - 1] {
        SubsequenceShorter(r[..|r| - 1], s[..|s| - 1]);
      } else {
        SubsequenceShorter(r, s[..|s| - 1]);
      }
    }
  }

  /** Dropping the last element of a subsequence keeps it a subsequence. */
  lemma {:induction false} SubsequenceDropLast<T>(r: seq<T>, s: seq<T>)
    requires r != [] && IsSubsequence(r, s)
    ensures IsSubsequence(r[..|r| - 1], s)
    decreases |s|, 0
  {
    assert s[..|s| - 1] + [s[|s| - 1]] == s;
    if r[|r| - 1] == s[|s| - 1] {
      SubsequenceWeaken(r[..|r| - 1], s[..|s| - 1], s[|s| - 1]);
    } else {
      SubsequenceDropLast(r, s[..|s| - 1]);
      SubsequenceWeaken(r[..|r| - 1], s[..|s| - 1], s[|s| - 1]);
    }
  }

  /** A subsequence of s is a subsequence of s with an element appended. */
  lemma {:induction false} SubsequenceWeaken<T>(r: seq<T>, s: seq<T>, x: T)
    requires IsSubsequence(r, s)
    ensures IsSubsequence(r, s + [x])
    decreases |s|, 1
  {
    assert (s + [x])[..|s|] == s;
    if r != [] && r[|r| - 1] == x {
      SubsequenceDropLast(r, s);
    }
  }

  lemma {:induction false} SubsequenceExtendSame<T>(r: seq<T>, s: seq<T>, x: T)
    requires IsSubsequence(r, s)
    ensures IsSubsequence(r + [x], s + [x])
  {
    assert (s + [x])[..|s|] == s;
    assert (r + [x])[..|r|] == r;
  }

  /** The kept vertices are a subsequence of the vertices considered. */
  lemma {:induction false} KeptSubsequence(b: Bounds, yShift: real, s: seq<C>, m: nat)
    requires 2 <= |s| && m <= |s|
    ensures IsSubsequence(Kept(b, yShift, s, m), s[..m])
  {
    if m > 0 {
      KeptSubsequence(b, yShift, s, m - 1);
      assert s[..m] == s[..m - 1] + [s[m - 1]];
      if KeepAt(b, yShift, s, m - 1) {
        SubsequenceExtendSame(Kept(b, yShift, s, m - 1), s[..m - 1], s[m - 1]);
      } else {
        SubsequenceWeaken(Kept(b, yShift, s, m - 1), s[..m - 1], s[m - 1]);
      }
    }
  }

  /** `crop` returns the vertices in their order, a subsequence no longer than the contour. */
  lemma CroppedSubsequence(b: Bounds, yShift: real, s: seq<C>)
    ensures IsSubsequence(Cropped(b, yShift, s), s) && |Cropped(b, yShift, s)| <= |s|
    ensures |s| < 2 ==> Cropped(b, yShift, s) == []
  {
    if |s| >= 2 {
      KeptSubsequence(Expand(b), yShift, s, |s|);
      assert s[..|s|] == s;
      SubsequenceShorter(Cropped(b, yShift, s), s);
    }
  }

  /** A vertex of a contour of at least two vertices that lies inside the expanded, shifted window is kept. */
  lemma KeepsInside(b: Bounds, yShift: real, s: seq<C>, i: int)
    requires 2 <= |s| && 0 <= i < |s|
    requires Inside(Expand(b), Add(s[i], C(0.0, yShift)))
    ensures KeepAt(Expand(b), yShift, s, i)
  {
  }

  /** The number of positions i > 0 of s where s[i] differs from s[i - 1]. */
  function Changes<T(==)>(s: seq<T>): nat {
    if |s| <= 1 then 0
    else Changes(s[..|s| - 1]) + (if s[|s| - 1] != s[|s| - 2] then 1 else 0)
  }

  /** `Vec::dedup`: consecutive equal elements collapsed into one. */
  function Dedup(s: seq<string>): (r: seq<string>)
    ensures |r| <= |s| && (r == [] <==> s == [])
    ensures s != [] ==> r[|r| - 1] == s[|s| - 1]
    ensures forall i :: 0 <= i < |r| - 1 ==> r[i] != r[i + 1]
    ensures forall x :: x in r <==> x in s
  {
    if |s| <= 1 then s
    else
      var d := Dedup(s[..|s| - 1]);
      assert s[|s| - 2] in s[..|s| - 1];
      if s[|s| - 1] == s[|s| - 2] then d else d + [s[|s| - 1]]
  }

  /**
   * Only consecutive repeats are removed: the result is a subsequence with one
   * element per run of equal neighbours.
   */
  lemma {:induction false} DedupKeepsRuns(s: seq<string>)
    ensures IsSubsequence(Dedup(s), s)
    ensures s != [] ==> |Dedup(s)| == 1 + Changes(s)
  {
    if |s| > 1 {
      var init, x := s[..|s| - 1], s[|s| - 1];
      DedupKeepsRuns(init);
      assert init + [x] == s;
      if x == s[|s| - 2] {
        assert Dedup(s) == Dedup(init);
        assert Changes(s) == Changes(init);
        SubsequenceWeaken(Dedup(init), init, x);
      } else {
        assert Dedup(s) == Dedup(init) + [x];
        assert Changes(s) == Changes(init) + 1;
        SubsequenceExtendSame(Dedup(init), init, x);
      }
    }
  }

  /** A sequence without neighbouring duplicates is its own dedup; so dedup is idempotent. */
  lemma {:induction false} DedupFixed(s: seq<string>)
    requires forall i :: 0 <= i < |s| - 1 ==> s[i] != s[i + 1]
    ensures Dedup(s) == s
  {
    if |s| > 1 {
      var init, x := s[..|s| - 1], s[|s| - 1];
      forall i | 0 <= i < |init| - 1
        ensures init[i] != init[i + 1]
      {
        assert init[i] == s[i] && init[i + 1] == s[i + 1];
      }
      DedupFixed(init);
      assert x != s[|s| - 2];
      assert Dedup(s) == Dedup(init) + [x];
      assert init + [x] == s;
    }
  }

  lemma DedupIdempotent(s: seq<string>)
    ensures Dedup(Dedup(s)) == Dedup(s)
  {
    DedupFixed(Dedup(s));
  }

  /** `format_coordinate`: `(re,im)` with the vertical shift, `fmt` being the `{:.5}` formatting of an `f64`. */
  function FormatCoordinate(fmt: real -> string, yShift: real, z: C): string {
    "(" + fmt(z.re) + "," + fmt(z.im + yShift) + ")"
  }

  /** The formatted coordinates of a contour, one per vertex. */
  function Coordinates(fmt: real -> string, yShift: real, contour: seq<C>): seq<string> {
    seq(|contour|, i requires 0 <= i < |contour| => FormatCoordinate(fmt, yShift, contour[i]))
  }

  /** `format_contour`: the formatted coordinates with consecutive duplicates removed. */
  function FormatContour(fmt: real -> string, yShift: real, contour: seq<C>): (r: seq<string>)
    ensures |r| <= |contour| && (r == [] <==> contour == [])
    ensures forall i :: 0 <= i < |r| - 1 ==> r[i] != r[i + 1]
  {
    Dedup(Coordinates(fmt, yShift, contour))
  }

  /**
   * The formatted contour keeps one coordinate per run of equal neighbouring
   * coordinates, in order, ending with the last vertex's: a closed contour
   * keeps its closing vertex.
   */
  lemma FormatContourRuns(fmt: real -> string, yShift: real, contour: seq<C>)
    ensures IsSubsequence(FormatContour(fmt, yShift, contour), Coordinates(fmt, yShift, contour))
    ensures contour != [] ==> |FormatContour(fmt, yShift, contour)| == 1 + Changes(Coordinates(fmt, yShift, contour))
    ensures contour != [] ==> FormatContour(fmt, yShift, contour)[|FormatContour(fmt, yShift, contour)| - 1]
                              == FormatCoordinate(fmt, yShift, contour[|contour| - 1])
  {
    DedupKeepsRuns(Coordinates(fmt, yShift, contour));
  }

  /** The three lines `add_plot_all` writes for non-empty coordinates, nothing otherwise. */
  function PlotText(options: seq<string>, coordinates: seq<string>): (lines: seq<string>)
    ensures coordinates == [] <==> lines == []
  {
    if coordinates == [] then []
    else ["\\addplot [" + JoinWith(options, ",") + "] coordinates { " + JoinWith(coordinates, " ") + " };",
          "\\directlua{progress_file:write(\".\")}",
          "\\directlua{progress_file:flush()}"]
  }

  /** The segments of a path drawn by `add_path`: the sheet of the segment and its points in the figure's plane. */
  datatype FigSegment = FigSegment(sheetData: SheetData, points: seq<C>)

  /** The points of the runs one after the other. */
  function Flatten(runs: seq<seq<C>>): seq<C> {
    if runs == [] then [] else Flatten(runs[..|runs| - 1]) + runs[|runs| - 1]
  }

  /** The points of the segments whose sheet agrees (`same`) or disagrees (`!same`) with the reference sheet. */
  function PointsOn(segs: seq<FigSegment>, reference: SheetData, comp: Component, same: bool): seq<C> {
    if segs == [] then []
    else
      var last := segs[|segs| - 1];
      PointsOn(segs[..|segs| - 1], reference, comp, same) + (if IsSame(last.sheetData, reference, comp) == same then last.points else [])
  }

  lemma FlattenAppend(runs: seq<seq<C>>, run: seq<C>)
    ensures Flatten(runs + [run]) == Flatten(runs) + run
  {
    assert (runs + [run])[..|runs|] == runs;
  }

  /** A block of consecutive segments on one side of `is_same`, with their points in order. */
  datatype Run = Run(same: bool, points: seq<C>)

  /** The blocks after one more segment: it joins the last block when on the same side, else opens a new one. */
  function Extend(bs: seq<Run>, same: bool, points: seq<C>): seq<Run> {
    if bs != [] && bs[|bs| - 1].same == same then bs[..|bs| - 1] + [Run(same, bs[|bs| - 1].points + points)]
    else bs + [Run(same, points)]
  }

  /** The maximal blocks of consecutive segments with the same `is_same` flag, in path order. */
  function Blocks(segs: seq<FigSegment>, reference: SheetData, comp: Component): (bs: seq<Run>)
    ensures |bs| <= |segs| && (bs == [] <==> segs == [])
    ensures forall k :: 0 <= k < |bs| - 1 ==> bs[k].same != bs[k + 1].same
  {
    if segs == [] then []
    else
      var last := segs[|segs| - 1];
      Extend(Blocks(segs[..|segs| - 1], reference, comp), IsSame(last.sheetData, reference, comp), last.points)
  }

  /** The last block, or an empty dotted one before any segment. */
  function OpenRun(bs: seq<Run>): Run {
    if bs == [] then Run(false, []) else bs[|bs| - 1]
  }

  /** All blocks but the last. */
  function ClosedRuns(bs: seq<Run>): seq<Run> {
    if bs == [] then [] else bs[..|bs| - 1]
  }

  /** The blocks that have points, in order. */
  function NonEmpty(bs: seq<Run>): (r: seq<Run>)
    ensures forall k :: 0 <= k < |r| ==> r[k].points != []
  {
    if bs == [] then []
    else NonEmpty(bs[..|bs| - 1]) + (if bs[|bs| - 1].points == [] then [] else [bs[|bs| - 1]])
  }

  /** The runs `add_path` draws: every block with points, and the last block even without. */
  function PathRuns(segs: seq<FigSegment>, reference: SheetData, comp: Component): seq<Run> {
    var bs := Blocks(segs, reference, comp);
    NonEmpty(ClosedRuns(bs)) + [OpenRun(bs)]
  }

  /** The points of the runs on one side, in order. */
  function Side(runs: seq<Run>, same: bool): seq<seq<C>> {
    if runs == [] then []
    else Side(runs[..|runs| - 1], same) + (if runs[|runs| - 1].same == same then [runs[|runs| - 1].points] else [])
  }

  lemma SideAppend(runs: seq<Run>, r: Run, same: bool)
    ensures Side(runs + [r], same) == Side(runs, same) + (if r.same == same then [r.points] else [])
  {
    assert (runs + [r])[..|runs|] == runs;
  }

  lemma NonEmptyAppend(bs: seq<Run>, r: Run)
    ensures NonEmpty(bs + [r]) == NonEmpty(bs) + (if r.points == [] then [] else [r])
  {
    assert (bs + [r])[..|bs|] == bs;
  }

  /** The loop state of `add_path` after the segments whose blocks are bs. */
  predicate SplitState(bs: seq<Run>, straight: seq<seq<C>>, dotted: seq<seq<C>>, sameBranch: bool, points: seq<C>) {
    sameBranch == OpenRun(bs).same && points == OpenRun(bs).points
    && straight == Side(NonEmpty(ClosedRuns(bs)), true) && dotted == Side(NonEmpty(ClosedRuns(bs)), false)
  }

  /** A segment on the other side of the open block closes it and opens a new block. */
  lemma ExtendOther(bs: seq<Run>, same: bool, pts: seq<C>)
    requires bs == [] || bs[|bs| - 1].same != same
    ensures ClosedRuns(Extend(bs, same, pts)) == bs && OpenRun(Extend(bs, same, pts)) == Run(same, pts)
  {
    assert (bs + [Run(same, pts)])[..|bs|] == bs;
  }

  /** A segment on the side of the open block extends it. */
  lemma ExtendSame(bs: seq<Run>, same: bool, pts: seq<C>)
    requires bs != [] && bs[|bs| - 1].same == same
    ensures ClosedRuns(Extend(bs, same, pts)) == ClosedRuns(bs)
    ensures OpenRun(Extend(bs, same, pts)) == Run(same, OpenRun(bs).points + pts)
  {
    assert (bs[..|bs| - 1] + [Run(same, bs[|bs| - 1].points + pts)])[..|bs| - 1] == bs[..|bs| - 1];
  }

  /** The closed runs of a side after the open block is closed. */
  lemma CloseOpen(bs: seq<Run>, same: bool)
    requires bs != []
    ensures Side(NonEmpty(bs), same) ==
      Side(NonEmpty(ClosedRuns(bs)), same) + (if OpenRun(bs).points != [] && OpenRun(bs).same == same then [OpenRun(bs).points] else [])
  {
    var init, op := bs[..|bs| - 1], bs[|bs| - 1];
    assert init + [op] == bs;
    assert ClosedRuns(bs) == init && OpenRun(bs) == op;
    NonEmptyAppend(init, op);
    if op.points != [] {
      assert NonEmpty(bs) == NonEmpty(init) + [op];
      SideAppend(NonEmpty(init), op, same);
    } else {
      assert NonEmpty(bs) == NonEmpty(init);
    }
  }

  /** One iteration of the loop keeps the loop state in step with the blocks. */
  lemma SplitStateStep(bs: seq<Run>, same: bool, pts: seq<C>,
                       straight0: seq<seq<C>>, dotted0: seq<seq<C>>, sameBranch0: bool, points0: seq<C>,
                       straight: seq<seq<C>>, dotted: seq<seq<C>>, sameBranch: bool, points: seq<C>)
    requires SplitState(bs, straight0, dotted0, sameBranch0, points0)
    requires sameBranch == same
    requires same != sameBranch0 && points0 != [] ==>
      points == pts && straight == straight0 + (if sameBranch0 then [points0] else []) && dotted == dotted0 + (if sameBranch0 then [] else [points0])
    requires !(same != sameBranch0 && points0 != []) ==> points == points0 + pts && straight == straight0 && dotted == dotted0
    ensures SplitState(Extend(bs, same, pts), straight, dotted, sameBranch, points)
  {
    if bs == [] {
      ExtendOther(bs, same, pts);
    } else if bs[|bs| - 1].same != same {
      ExtendOther(bs, same, pts);
      CloseOpen(bs, true);
      CloseOpen(bs, false);
    } else {
      ExtendSame(bs, same, pts);
    }
  }

  /** The blocks of one more segment of the path. */
  lemma BlocksSnoc(segs: seq<FigSegment>, i: nat, reference: SheetData, comp: Component)
    requires i < |segs|
    ensures Blocks(segs[..i + 1], reference, comp) ==
      Extend(Blocks(segs[..i], reference, comp), IsSame(segs[i].sheetData, reference, comp), segs[i].points)
  {
    assert segs[..i + 1][..i] == segs[..i];
  }

  /** After the loop, closing the open block on its side gives the runs of both sides. */
  lemma FinishRuns(bs: seq<Run>, straight: seq<seq<C>>, dotted: seq<seq<C>>, sameBranch: bool, points: seq<C>)
    requires SplitState(bs, straight, dotted, sameBranch, points)
    ensures Side(NonEmpty(ClosedRuns(bs)) + [OpenRun(bs)], true) == straight + (if sameBranch then [points] else [])
    ensures Side(NonEmpty(ClosedRuns(bs)) + [OpenRun(bs)], false) == dotted + (if sameBranch then [] else [points])
  {
    SideAppend(NonEmpty(ClosedRuns(bs)), OpenRun(bs), true);
    SideAppend(NonEmpty(ClosedRuns(bs)), OpenRun(bs), false);
  }

  /** The points of the closed runs of one side, followed by those of the open block when on that side. */
  function PendingPoints(bs: seq<Run>, same: bool): seq<C> {
    Flatten(Side(NonEmpty(ClosedRuns(bs)), same)) + (if OpenRun(bs).same == same then OpenRun(bs).points else [])
  }

  lemma PendingExtend(bs: seq<Run>, flag: bool, pts: seq<C>, same: bool)
    ensures PendingPoints(Extend(bs, flag, pts), same) == PendingPoints(bs, same) + (if flag == same then pts else [])
  {
    if bs == [] {
      ExtendOther(bs, flag, pts);
    } else if bs[|bs| - 1].same != flag {
      ExtendOther(bs, flag, pts);
      CloseOpen(bs, same);
      var closed := Side(NonEmpty(ClosedRuns(bs)), same);
      var op := OpenRun(bs);
      if op.points != [] && op.same == same {
        FlattenAppend(closed, op.points);
        assert Flatten(Side(NonEmpty(bs), same)) == Flatten(closed) + op.points;
      } else {
        assert Side(NonEmpty(bs), same) == closed + [];
        assert closed + [] == closed;
      }
      assert Flatten(Side(NonEmpty(bs), same)) == PendingPoints(bs, same);
    } else {
      ExtendSame(bs, flag, pts);
    }
  }

  /** The runs of each side hold exactly the points of the segments on that side, in path order. */
  lemma {:induction false} PathRunsCoverPoints(segs: seq<FigSegment>, reference: SheetData, comp: Component, same: bool)
    ensures Flatten(Side(PathRuns(segs, reference, comp), same)) == PointsOn(segs, reference, comp, same)
  {
    PendingCover(segs, reference, comp, same);
    var bs := Blocks(segs, reference, comp);
    var closed := Side(NonEmpty(ClosedRuns(bs)), same);
    SideAppend(NonEmpty(ClosedRuns(bs)), OpenRun(bs), same);
    assert PathRuns(segs, reference, comp) == NonEmpty(ClosedRuns(bs)) + [OpenRun(bs)];
    if OpenRun(bs).same == same {
      FlattenAppend(closed, OpenRun(bs).points);
      assert Flatten(Side(PathRuns(segs, reference, comp), same)) == Flatten(closed) + OpenRun(bs).points;
    } else {
      assert closed + [] == closed;
      assert Side(PathRuns(segs, reference, comp), same) == closed;
    }
    assert Flatten(Side(PathRuns(segs, reference, comp), same)) == PendingPoints(bs, same);
  }

  lemma {:induction false} PendingCover(segs: seq<FigSegment>, reference: SheetData, comp: Component, same: bool)
    ensures PendingPoints(Blocks(segs, reference, comp), same) == PointsOn(segs, reference, comp, same)
  {
    if segs != [] {
      var last := segs[|segs| - 1];
      PendingCover(segs[..|segs| - 1], reference, comp, same);
      PendingExtend(Blocks(segs[..|segs| - 1], reference, comp), IsSame(last.sheetData, reference, comp), last.points, same);
    }
  }

  /** A dotted stretch between two straight ones splits the straight points into two runs. */
  lemma StraightRunsSplitByDotted(a: FigSegment, b: FigSegment, c: FigSegment, reference: SheetData, comp: Component)
    requires IsSame(a.sheetData, reference, comp) && IsSame(c.sheetData, reference, comp)
    requires !IsSame(b.sheetData, reference, comp)
    requires a.points != [] && b.points != []
    ensures Side(PathRuns([a, b, c], reference, comp), true) == [a.points, c.points]
    ensures Side(PathRuns([a, b, c], reference, comp), false) == [b.points]
  {
    var r1, r2, r3 := Run(true, a.points), Run(false, b.points), Run(true, c.points);
    BlocksOfThree(a, b, c, reference, comp);
    ThreeRuns(r1, r2, r3);
  }

  lemma BlocksOfThree(a: FigSegment, b: FigSegment, c: FigSegment, reference: SheetData, comp: Component)
    requires IsSame(a.sheetData, reference, comp) && IsSame(c.sheetData, reference, comp)
    requires !IsSame(b.sheetData, reference, comp)
    ensures Blocks([a, b, c], reference, comp) == [Run(true, a.points), Run(false, b.points), Run(true, c.points)]
  {
    assert [a, b, c][..2] == [a, b];
    assert [a, b][..1] == [a];
    assert [a][..0] == [];
    assert Blocks([a], reference, comp) == [Run(true, a.points)];
    assert Blocks([a, b], reference, comp) == [Run(true, a.points), Run(false, b.points)];
  }

  lemma ThreeRuns(r1: Run, r2: Run, r3: Run)
    requires r1.same && !r2.same && r3.same && r1.points != [] && r2.points != []
    ensures var bs := [r1, r2, r3];
      Side(NonEmpty(ClosedRuns(bs)) + [OpenRun(bs)], true) == [r1.points, r3.points]
      && Side(NonEmpty(ClosedRuns(bs)) + [OpenRun(bs)], false) == [r2.points]
  {
    assert [r1, r2, r3][..2] == [r1, r2];
    assert [] + [r1] == [r1] && [r1] + [r2] == [r1, r2];
    NonEmptyAppend([], r1);
    NonEmptyAppend([r1], r2);
    SideAppend([], r1, true);
    SideAppend([r1], r2, true);
    SideAppend([r1, r2], r3, true);
    SideAppend([], r1, false);
    SideAppend([r1], r2, false);
    SideAppend([r1, r2], r3, false);
  }

  /**
   * The loop of `add_path`: the points are gathered into runs of segments
   * on the same side of `is_same`; a run is closed when the flag changes and
   * points were gathered; the last run is always closed, possibly empty.
   * The straight runs hold exactly the points on the reference sheet and the
   * dotted runs the others, both in path order.
   */
  method SplitRuns(segs: seq<FigSegment>, reference: SheetData, comp: Component) returns (straight: seq<seq<C>>, dotted: seq<seq<C>>)
    ensures straight == Side(PathRuns(segs, reference, comp), true)
    ensures dotted == Side(PathRuns(segs, reference, comp), false)
    ensures Flatten(straight) == PointsOn(segs, reference, comp, true)
    ensures Flatten(dotted) == PointsOn(segs, reference, comp, false)
    ensures |straight| + |dotted| >= 1
  {
    straight, dotted := [], [];
    var sameBranch := false;
    var points: seq<C> := [];
    for i := 0 to |segs|
      invariant SplitState(Blocks(segs[..i], reference, comp), straight, dotted, sameBranch, points)
    {
      BlocksSnoc(segs, i, reference, comp);
      var flag := IsSame(segs[i].sheetData, reference, comp);
      var straight', dotted', sameBranch', points' := SplitStep(straight, dotted, sameBranch, points, segs[i], flag);
      SplitStateStep(Blocks(segs[..i], reference, comp), flag, segs[i].points,
                     straight, dotted, sameBranch, points, straight', dotted', sameBranch', points');
      straight, dotted, sameBranch, points := straight', dotted', sameBranch', points';
    }
    assert segs[..|segs|] == segs;
    FinishRuns(Blocks(segs, reference, comp), straight, dotted, sameBranch, points);
    if sameBranch {
      straight := straight + [points];
    } else {
      dotted := dotted + [points];
    }
    PathRunsCoverPoints(segs, reference, comp, true);
    PathRunsCoverPoints(segs, reference, comp, false);
  }

  /** The points of closed runs, followed by the open run when it belongs to this side. */
  function Pending(runs: seq<seq<C>>, open: bool, points: seq<C>): seq<C> {
    Flatten(runs) + (if open then points else [])
  }

  /** One iteration of the loop of `add_path`: close the open run if the flag changes and it has points, then extend it. */
  method SplitStep(straight0: seq<seq<C>>, dotted0: seq<seq<C>>, sameBranch0: bool, points0: seq<C>, seg: FigSegment, segmentSame: bool)
    returns (straight: seq<seq<C>>, dotted: seq<seq<C>>, sameBranch: bool, points: seq<C>)
    ensures sameBranch == segmentSame
    ensures segmentSame != sameBranch0 && points0 != [] ==>
      points == seg.points && straight == straight0 + (if sameBranch0 then [points0] else []) && dotted == dotted0 + (if sameBranch0 then [] else [points0])
    ensures !(segmentSame != sameBranch0 && points0 != []) ==> points == points0 + seg.points && straight == straight0 && dotted == dotted0
    ensures Pending(straight, sameBranch, points) == Pending(straight0, sameBranch0, points0) + (if segmentSame then seg.points else [])
    ensures Pending(dotted, !sameBranch, points) == Pending(dotted0, !sameBranch0, points0) + (if segmentSame then [] else seg.points)
  {
    straight, dotted, sameBranch, points := straight0, dotted0, sameBranch0, points0;
    if segmentSame != sameBranch && points != [] {
      if sameBranch {
        FlattenAppend(straight, points);
        straight := straight + [points];
      } else {
        FlattenAppend(dotted, points);
        dotted := dotted + [points];
      }
      points := [];
    }
    points := points + seg.points;
    sameBranch := segmentSame;
  }

  /** The lines `add_plot` writes for a contour: crop, format, then `add_plot_all`. */
  function PlotOutput(b: Bounds, yShift: real, fmt: real -> string, options: seq<string>, contour: seq<C>): seq<string> {
    PlotText(options, FormatContour(fmt, yShift, Cropped(b, yShift, contour)))
  }

  /** Whether `add_plot` counts a plot for the contour. */
  function PlotIncrement(b: Bounds, yShift: real, contour: seq<C>): nat {
    if Cropped(b, yShift, contour) == [] then 0 else 1
  }

  /** The lines written for a list of contours, one `add_plot` after the other. */
  function PlotsOutput(b: Bounds, yShift: real, fmt: real -> string, options: seq<string>, contours: seq<seq<C>>): seq<string> {
    if contours == [] then []
    else PlotsOutput(b, yShift, fmt, options, contours[..|contours| - 1]) + PlotOutput(b, yShift, fmt, options, contours[|contours| - 1])
  }

  /** The plots counted for a list of contours. */
  function PlotsCount(b: Bounds, yShift: real, contours: seq<seq<C>>): (n: nat)
    ensures n <= |contours|
  {
    if contours == [] then 0
    else PlotsCount(b, yShift, contours[..|contours| - 1]) + PlotIncrement(b, yShift, contours[|contours| - 1])
  }

  lemma LinesAssoc(a: seq<string>, b: seq<string>, c: seq<string>)
    ensures a + b + c == a + (b + c)
  {
  }

  /** One more contour adds its own plot to the output and the count. */
  lemma PlotsStep(b: Bounds, yShift: real, fmt: real -> string, options: seq<string>, contours: seq<seq<C>>, i: nat)
    requires i < |contours|
    ensures PlotsOutput(b, yShift, fmt, options, contours[..i + 1]) ==
      PlotsOutput(b, yShift, fmt, options, contours[..i]) + PlotOutput(b, yShift, fmt, options, contours[i])
    ensures PlotsCount(b, yShift, contours[..i + 1]) == PlotsCount(b, yShift, contours[..i]) + PlotIncrement(b, yShift, contours[i])
  {
    assert contours[..i + 1][..i] == contours[..i];
  }

  /** A line of `add_path_arrows`: a segment of the path with the path length up to and including it. */
  datatype ArrowLine = ArrowLine(start: C, end: C, segEnd: real)

  /** The consecutive pairs of a track (`tuple_windows`). */
  function Windows(t: seq<C>): seq<(C, C)> {
    if |t| < 2 then [] else Windows(t[..|t| - 1]) + [(t[|t| - 2], t[|t| - 1])]
  }

  /** `tuple_windows` gives each pair of consecutive vertices, in order. */
  lemma {:induction false} WindowsPairs(t: seq<C>)
    ensures |Windows(t)| == if |t| < 2 then 0 else |t| - 1
    ensures forall i :: 0 <= i < |Windows(t)| ==> Windows(t)[i] == (t[i], t[i + 1])
  {
    if |t| >= 2 {
      var init := t[..|t| - 1];
      WindowsPairs(init);
      forall i | 0 <= i < |Windows(t)|
        ensures Windows(t)[i] == (t[i], t[i + 1])
      {
        if i < |Windows(init)| {
          assert Windows(t)[i] == Windows(init)[i] == (init[i], init[i + 1]);
        }
      }
    }
  }

  /** The consecutive pairs of the tracks, track after track. */
  function Pairs(tracks: seq<seq<C>>): seq<(C, C)> {
    if tracks == [] then []
    else Pairs(tracks[..|tracks| - 1]) + Windows(tracks[|tracks| - 1])
  }

  /** The length of the whole path: the cumulative length at the last line. */
  function Total(lines: seq<ArrowLine>): real {
    if lines == [] then 0.0 else lines[|lines| - 1].segEnd
  }

  /** The lines of `add_path_arrows`, each with the length of the path up to its end. */
  function Lines(pairs: seq<(C, C)>, norm: C -> real): seq<ArrowLine> {
    if pairs == [] then []
    else
      var init := Lines(pairs[..|pairs| - 1], norm);
      var q := pairs[|pairs| - 1];
      init + [ArrowLine(q.0, q.1, Total(init) + norm(Sub(q.1, q.0)))]
  }

  /** One line per pair, from its first to its second point. */
  lemma {:induction false} LinesEnds(pairs: seq<(C, C)>, norm: C -> real)
    ensures |Lines(pairs, norm)| == |pairs|
    ensures forall k :: 0 <= k < |pairs| ==> Lines(pairs, norm)[k].start == pairs[k].0 && Lines(pairs, norm)[k].end == pairs[k].1
  {
    if pairs != [] {
      var init := pairs[..|pairs| - 1];
      LinesEnds(init, norm);
      forall k | 0 <= k < |init|
        ensures Lines(pairs, norm)[k] == Lines(init, norm)[k]
      {
      }
    }
  }

  lemma LinesAppend(pairs: seq<(C, C)>, q: (C, C), norm: C -> real)
    ensures Lines(pairs + [q], norm) == Lines(pairs, norm) + [ArrowLine(q.0, q.1, Total(Lines(pairs, norm)) + norm(Sub(q.1, q.0)))]
  {
    assert (pairs + [q])[..|pairs|] == pairs;
  }

  /** The length of the path before line k. */
  function Before(lines: seq<ArrowLine>, k: int): real
    requires 0 <= k <= |lines|
  {
    if k == 0 then 0.0 else lines[k - 1].segEnd
  }

  /** Cumulative lengths that start at 0 and never decrease. */
  predicate Ordered(lines: seq<ArrowLine>) {
    forall k :: 0 <= k < |lines| ==> 0.0 <= Before(lines, k) <= lines[k].segEnd
  }

  /** With non-negative norms the cumulative lengths are ordered, each line adding its own norm. */
  lemma {:induction false} LinesOrdered(pairs: seq<(C, C)>, norm: C -> real)
    requires forall z :: norm(z) >= 0.0
    ensures var lines := Lines(pairs, norm);
      Ordered(lines) &&
      forall k :: 0 <= k < |lines| ==> lines[k].segEnd == Before(lines, k) + norm(Sub(lines[k].end, lines[k].start))
  {
    if pairs != [] {
      var init := Lines(pairs[..|pairs| - 1], norm);
      LinesOrdered(pairs[..|pairs| - 1], norm);
      var lines := Lines(pairs, norm);
      assert Total(init) >= 0.0 by {
        if init != [] {
          assert 0.0 <= Before(init, |init| - 1) <= init[|init| - 1].segEnd;
        }
      }
      forall k | 0 <= k < |lines|
        ensures 0.0 <= Before(lines, k) <= lines[k].segEnd
        ensures lines[k].segEnd == Before(lines, k) + norm(Sub(lines[k].end, lines[k].start))
      {
        if k < |init| {
          assert lines[k] == init[k] && Before(lines, k) == Before(init, k);
        } else {
          assert Before(lines, k) == Total(init);
        }
      }
    }
  }

  /** In ordered lines, every line ends before pos exactly when there are none or the whole path does. */
  lemma {:induction false} BeyondEnd(lines: seq<ArrowLine>, pos: real)
    requires Ordered(lines)
    ensures (forall k :: 0 <= k < |lines| ==> lines[k].segEnd < pos) <==> lines == [] || Total(lines) < pos
  {
    if lines != [] && Total(lines) < pos {
      var n := |lines|;
      var k := n - 1;
      while k > 0
        invariant 0 <= k < n
        invariant forall m :: k <= m < n ==> lines[m].segEnd < pos
      {
        assert Before(lines, k) <= lines[k].segEnd;
        k := k - 1;
      }
    }
  }

  /** `partition_point(|l| l.segEnd < pos)`: the number of leading lines that end before pos. */
  function PartitionPoint(lines: seq<ArrowLine>, pos: real): (n: nat)
    ensures n <= |lines|
    ensures forall k :: 0 <= k < n ==> lines[k].segEnd < pos
    ensures n < |lines| ==> lines[n].segEnd >= pos
  {
    if lines == [] || lines[0].segEnd >= pos then 0
    else 1 + PartitionPoint(lines[1..], pos)
  }

  /** The arrow for one mark: the line it falls on and the fraction of that line at which it sits. */
  datatype ArrowMark = ArrowMark(index: nat, t: Option<real>)

  /**
   * The arrow at path length pos: none when every line ends before pos;
   * otherwise the first line reaching pos and t = 1 - (segEnd - pos) / |line|,
   * which has no value for a line of length zero (the source divides by
   * zero there; a norm is never negative).
   */
  function ArrowAt(lines: seq<ArrowLine>, pos: real, norm: C -> real): (a: Option<ArrowMark>)
    ensures a.None? <==> forall k :: 0 <= k < |lines| ==> lines[k].segEnd < pos
    ensures a.Some? ==> a.value.index == PartitionPoint(lines, pos) < |lines| && pos <= lines[a.value.index].segEnd
    ensures a.Some? && a.value.t.Some? ==> a.value.t.value <= 1.0
  {
    var index := PartitionPoint(lines, pos);
    if index == |lines| then None
    else
      var line := lines[index];
      var n := norm(Sub(line.end, line.start));
      if n <= 0.0 then Some(ArrowMark(index, None))
      else
        FractionNonNegative(line.segEnd - pos, n);
        Some(ArrowMark(index, Some(1.0 - (line.segEnd - pos) / n)))
  }

  /**
   * `add_path_arrows`, without the drawing: the lines of the tracks with
   * their cumulative lengths, then for each mark (a fraction of the whole
   * length) the arrow at that length; marks beyond the end get none.
   */
  method ArrowMarks(tracks: seq<seq<C>>, marks: seq<real>, norm: C -> real) returns (lines: seq<ArrowLine>, arrows: seq<Option<ArrowMark>>)
    requires forall z :: norm(z) >= 0.0
    ensures lines == Lines(Pairs(tracks), norm) && Ordered(lines)
    ensures |arrows| == |marks|
    ensures forall i :: 0 <= i < |marks| ==> arrows[i] == ArrowAt(lines, MarkPos(marks[i], Total(lines)), norm)
  {
    lines := TrackLines(tracks, norm);
    LinesOrdered(Pairs(tracks), norm);
    arrows := ArrowsAlong(lines, marks, Total(lines), norm);
  }

  /** The path length of a mark given as a fraction of the total length. */
  function MarkPos(mark: real, total: real): real {
    mark * total
  }

  /** The second loop of `add_path_arrows`: the arrow of each mark, as a fraction of the total length. */
  method ArrowsAlong(lines: seq<ArrowLine>, marks: seq<real>, total: real, norm: C -> real) returns (arrows: seq<Option<ArrowMark>>)
    ensures |arrows| == |marks|
    ensures forall i :: 0 <= i < |marks| ==> arrows[i] == ArrowAt(lines, MarkPos(marks[i], total), norm)
  {
    arrows := [];
    for i := 0 to |marks|
      invariant |arrows| == i
      invariant forall k :: 0 <= k < i ==> arrows[k] == ArrowAt(lines, MarkPos(marks[k], total), norm)
    {
      arrows := arrows + [ArrowAt(lines, MarkPos(marks[i], total), norm)];
    }
  }

  /** A mark gets no arrow exactly when the path is empty or the mark lies beyond its end. */
  lemma ArrowSkipped(lines: seq<ArrowLine>, pos: real, norm: C -> real)
    requires Ordered(lines)
    ensures ArrowAt(lines, pos, norm).None? <==> lines == [] || Total(lines) < pos
  {
    BeyondEnd(lines, pos);
  }

  /** The first loop of `add_path_arrows`: a line per consecutive pair of each track, with the running length. */
  method TrackLines(tracks: seq<seq<C>>, norm: C -> real) returns (lines: seq<ArrowLine>)
    ensures lines == Lines(Pairs(tracks), norm)
  {
    var pairs: seq<(C, C)> := [];
    lines := [];
    for s := 0 to |tracks|
      invariant pairs == Pairs(tracks[..s])
      invariant lines == Lines(pairs, norm)
    {
      assert tracks[..s + 1][..s] == tracks[..s];
      pairs, lines := AddTrackLines(pairs, lines, tracks[s], norm);
    }
    assert tracks[..|tracks|] == tracks;
  }

  lemma WindowsStep(t: seq<C>, j: nat)
    requires j + 2 <= |t|
    ensures Windows(t[..j + 2]) == Windows(t[..j + 1]) + [(t[j], t[j + 1])]
  {
    assert t[..j + 2][..j + 1] == t[..j + 1];
  }

  /** One pair of a track extends both the pairs and their lines. */
  lemma TrackLinesStep(pairs0: seq<(C, C)>, pairs: seq<(C, C)>, t: seq<C>, j: nat, norm: C -> real)
    requires j + 2 <= |t| && pairs == pairs0 + Windows(t[..j + 1])
    ensures pairs + [(t[j], t[j + 1])] == pairs0 + Windows(t[..j + 2])
    ensures Lines(pairs + [(t[j], t[j + 1])], norm) ==
      Lines(pairs, norm) + [ArrowLine(t[j], t[j + 1], Total(Lines(pairs, norm)) + norm(Sub(t[j + 1], t[j])))]
  {
    WindowsStep(t, j);
    LinesAppend(pairs, (t[j], t[j + 1]), norm);
  }

  /** The inner loop of `add_path_arrows` over the pairs of one track. */
  method AddTrackLines(pairs0: seq<(C, C)>, lines0: seq<ArrowLine>, t: seq<C>, norm: C -> real) returns (pairs: seq<(C, C)>, lines: seq<ArrowLine>)
    requires lines0 == Lines(pairs0, norm)
    ensures pairs == pairs0 + Windows(t) && lines == Lines(pairs, norm)
  {
    pairs, lines := pairs0, lines0;
    var len := Total(lines);
    if |t| < 2 {
      return;
    }
    for j := 0 to |t| - 1
      invariant pairs == pairs0 + Windows(t[..j + 1])
      invariant lines == Lines(pairs, norm) && len == Total(lines)
    {
      var q := (t[j], t[j + 1]);
      TrackLinesStep(pairs0, pairs, t, j, norm);
      len := len + norm(Sub(q.1, q.0));
      pairs := pairs + [q];
      lines := lines + [ArrowLine(q.0, q.1, len)];
    }
    assert t[..|t| - 1 + 1] == t;
  }

  /** The fraction a / n of a positive n is non-negative when a is. */
  lemma FractionNonNegative(a: real, n: real)
    requires a >= 0.0 && n > 0.0
    ensures a / n >= 0.0
  {
  }

  /** A figure under construction: its window, plane and vertical shift, the plots counted and the lines written. */
  class FigureWriter {
    var bounds: Bounds
    var component: Component
    var yShift: Option<real>
    var plotCount: nat
    var output: seq<string>

    /** A new writer: no plots, nothing written after the preamble, plane and shift as given. */
    constructor (bounds: Bounds, component: Component)
      ensures this.bounds == bounds && this.component == component && yShift == None
      ensures plotCount == 0 && output == []
    {
      this.bounds := bounds;
      this.component := component;
      yShift := None;
      plotCount := 0;
      output := [];
    }

    /** `y_shift.unwrap_or_default()`. */
    function Shift(): real
      reads this
    {
      if yShift.Some? then yShift.value else 0.0
    }

    /**
     * `crop`: nothing for fewer than two vertices; otherwise the first vertex
     * if its segment is included, each inner vertex one of whose segments is
     * included, and the last vertex if its segment is included.
     */
    method Crop(contour: seq<C>) returns (coordinates: seq<C>)
      ensures coordinates == Cropped(bounds, Shift(), contour)
    {
      if |contour| < 2 {
        return [];
      }
      var b := Expand(bounds);
      var ys := Shift();
      coordinates := [];
      if Include(b, ys, contour[0], contour[1]) {
        coordinates := coordinates + [contour[0]];
      }
      assert coordinates == Kept(b, ys, contour, 1);
      for j := 0 to |contour| - 2
        invariant coordinates == Kept(b, ys, contour, j + 1)
      {
        if Include(b, ys, contour[j], contour[j + 1]) || Include(b, ys, contour[j + 1], contour[j + 2]) {
          coordinates := coordinates + [contour[j + 1]];
        }
      }
      var n := |contour|;
      if Include(b, ys, contour[n - 2], contour[n - 1]) {
        coordinates := coordinates + [contour[n - 1]];
      }
    }

    /** `add_plot_all`: writes the plot and counts it when there are coordinates; otherwise nothing changes. */
    method AddPlotAll(fmt: real -> string, options: seq<string>, contour: seq<C>)
      modifies this`output, this`plotCount
      ensures output == old(output) + PlotText(options, FormatContour(fmt, old(Shift()), contour))
      ensures plotCount == old(plotCount) + (if contour == [] then 0 else 1)
    {
      var coordinates := FormatContour(fmt, Shift(), contour);
      if coordinates != [] {
        output := output + PlotText(options, coordinates);
        plotCount := plotCount + 1;
      }
    }

    /** `add_plot`: `add_plot_all` on the cropped contour. */
    method AddPlot(fmt: real -> string, options: seq<string>, contour: seq<C>)
      modifies this`output, this`plotCount
      ensures output == old(output) + PlotOutput(old(bounds), old(Shift()), fmt, options, contour)
      ensures plotCount == old(plotCount) + PlotIncrement(old(bounds), old(Shift()), contour)
    {
      var coordinates := Crop(contour);
      AddPlotAll(fmt, options, coordinates);
    }

    /** `add_plot` for each contour in order. */
    method AddPlots(fmt: real -> string, options: seq<string>, contours: seq<seq<C>>)
      modifies this`output, this`plotCount
      ensures output == old(output) + PlotsOutput(old(bounds), old(Shift()), fmt, options, contours)
      ensures plotCount == old(plotCount) + PlotsCount(old(bounds), old(Shift()), contours)
    {
      ghost var b, ys := bounds, Shift();
      var i := 0;
      while i < |contours|
        invariant 0 <= i <= |contours|
        invariant bounds == b && Shift() == ys
        invariant output == old(output) + PlotsOutput(b, ys, fmt, options, contours[..i])
        invariant plotCount == old(plotCount) + PlotsCount(b, ys, contours[..i])
      {
        PlotsStep(b, ys, fmt, options, contours, i);
        LinesAssoc(old(output), PlotsOutput(b, ys, fmt, options, contours[..i]), PlotOutput(b, ys, fmt, options, contours[i]));
        AddPlot(fmt, options, contours[i]);
        i := i + 1;
      }
      assert contours[..|contours|] == contours;
    }

    /**
     * `add_path`: the path's segments split into runs by whether their sheet
     * is the same as that of the first point of the state, the dotted runs
     * plotted first and the straight runs after.
     */
    method AddPath(fmt: real -> string, reference: SheetData, segs: seq<FigSegment>, options: seq<string>)
      returns (straight: seq<seq<C>>, dotted: seq<seq<C>>)
      modifies this`output, this`plotCount
      ensures straight == Side(PathRuns(segs, reference, old(component)), true)
      ensures dotted == Side(PathRuns(segs, reference, old(component)), false)
      ensures Flatten(straight) == PointsOn(segs, reference, old(component), true)
      ensures Flatten(dotted) == PointsOn(segs, reference, old(component), false)
      ensures output == old(output) + PlotsOutput(old(bounds), old(Shift()), fmt, ["very thick", "Blue", "dotted"] + options, dotted)
                                    + PlotsOutput(old(bounds), old(Shift()), fmt, ["very thick", "Blue"] + options, straight)
      ensures plotCount == old(plotCount) + PlotsCount(old(bounds), old(Shift()), dotted) + PlotsCount(old(bounds), old(Shift()), straight)
    {
      straight, dotted := SplitRuns(segs, reference, component);
      AddPlots(fmt, ["very thick", "Blue", "dotted"] + options, dotted);
      AddPlots(fmt, ["very thick", "Blue"] + options, straight);
    }
  }

  /** `add_plot_all` counts a plot exactly when the contour has a vertex. */
  lemma PlotCountedIffNonEmpty(fmt: real -> string, yShift: real, options: seq<string>, contour: seq<C>)
    ensures PlotText(options, FormatContour(fmt, yShift, contour)) == [] <==> contour == []
  {
  }
}
