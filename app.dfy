/**
 * The presentation viewer: its frames, what starting a frame does to the
 * plots, the navigation between frames, and the cache of `Pxu` values, one
 * per set of coupling constants.
 */
module PresentationApp {
  import opened Wrappers
  import opened Kinematics
  import opened StateModel
  import opened PxuLib
  import opened PresentationDescription
  import opened PlotModel

  /** A plot of one component: its height, width factor and origin. */
  datatype Plot = Plot(component: Component, height: real, widthFactor: real, origin: Pair)

  /** The description of a plot of a frame: an origin and a height, each constant or in transition. */
  datatype PlotDescription = PlotDescription(origin: Option<Value<Pair>>, height: Option<Value<real>>)

  /** The description of a relativistic plot of a frame. */
  datatype RelativisticPlotDescription = RelativisticPlotDescription(
    rect: Value<Rect>, m: Value<real>, point: Option<Value<Pair>>, height: Option<Value<real>>)

  /**
   * A frame of the presentation. The description of its dispersion-relation
   * plot is not part of this model; the frame keeps only whether it is
   * animated.
   */
  datatype Frame = Frame(
    plot: map<Component, PlotDescription>,
    relativisticPlot: map<RelativisticComponent, RelativisticPlotDescription>,
    dispRelPlotAnimated: bool,
    startTime: real,
    duration: Option<real>,
    consts: Option<CouplingConstants>,
    cutFilter: Option<CutFilter>,
    imageName: string)

  /**
   * `Frame::is_animated`: the plot descriptions, then the relativistic plot
   * descriptions, then the dispersion-relation plot are asked in turn, and
   * the first animated one answers. How a single description decides is
   * passed in.
   */
  method IsAnimated(frame: Frame, plotAnimated: PlotDescription -> bool, relAnimated: RelativisticPlotDescription -> bool)
    returns (animated: bool)
    ensures animated <==>
      (exists c :: c in frame.plot && plotAnimated(frame.plot[c]))
      || (exists c :: c in frame.relativisticPlot && relAnimated(frame.relativisticPlot[c]))
      || frame.dispRelPlotAnimated
  {
    var keys := frame.plot.Keys;
    while keys != {}
      invariant keys <= frame.plot.Keys
      invariant forall c :: c in frame.plot && c !in keys ==> !plotAnimated(frame.plot[c])
      decreases |keys|
    {
      var c :| c in keys;
      if plotAnimated(frame.plot[c]) {
        return true;
      }
      keys := keys - {c};
    }
    var relKeys := frame.relativisticPlot.Keys;
    while relKeys != {}
      invariant relKeys <= frame.relativisticPlot.Keys
      invariant forall c :: c in frame.relativisticPlot && c !in relKeys ==> !relAnimated(frame.relativisticPlot[c])
      decreases |relKeys|
    {
      var c :| c in relKeys;
      if relAnimated(frame.relativisticPlot[c]) {
        return true;
      }
      relKeys := relKeys - {c};
    }
    return frame.dispRelPlotAnimated;
  }

  /**
   * What starting a frame does to one plot: a constant origin or height in
   * the frame's description of that plot replaces the plot's; transitions
   * and absent entries leave it as it is.
   */
  function Applied(plot: Plot, descr: Option<PlotDescription>): (r: Plot)
    ensures r.component == plot.component && r.widthFactor == plot.widthFactor
  {
    if descr.None? then plot
    else
      var withOrigin := if descr.value.origin.Some? && descr.value.origin.value.Const? then plot.(origin := descr.value.origin.value.v) else plot;
      if descr.value.height.Some? && descr.value.height.value.Const? then withOrigin.(height := descr.value.height.value.v) else withOrigin
  }

  /** A description without constants changes nothing, and starting a frame twice is the same as starting it once. */
  lemma AppliedProperties(plot: Plot, descr: Option<PlotDescription>)
    ensures descr.None? ==> Applied(plot, descr) == plot
    ensures (descr.Some? && (descr.value.origin.None? || descr.value.origin.value.Transition?) &&
             (descr.value.height.None? || descr.value.height.value.Transition?)) ==> Applied(plot, descr) == plot
    ensures Applied(Applied(plot, descr), descr) == Applied(plot, descr)
    ensures descr.Some? && descr.value.origin == Some(Const(plot.origin)) && descr.value.height == Some(Const(plot.height)) ==>
      Applied(plot, descr) == plot
  {
  }

  /** The description of a component's plot, if the frame has one. */
  function Lookup(plot: map<Component, PlotDescription>, c: Component): (r: Option<PlotDescription>)
    ensures r.Some? <==> c in plot
    ensures r.Some? ==> r.value == plot[c]
  {
    if c in plot then Some(plot[c]) else None
  }

  /** The plots and coupling constants shared by all frames, with the plot state. */
  class PlotData {
    var consts: CouplingConstants
    var pPlot: Plot
    var xpPlot: Plot
    var xmPlot: Plot
    var uPlot: Plot
    const plotState: PlotState

    /**
     * `PlotData::default`: coupling constants h = 2, k = 5 and the default
     * plots. The height of the x plots is 8 s(h, k), passed in because s is
     * not part of this model; that of the u plot is (4k + 1)/h.
     */
    constructor (xHeight: real)
      ensures consts == CouplingConstants(2.0, 5)
      ensures pPlot == Plot(P, 0.75, 1.5, Pair(0.5, 0.0))
      ensures xpPlot == Plot(Xp, xHeight, 1.0, Pair(0.0, 0.0)) && xmPlot == Plot(Xm, xHeight, 1.0, Pair(0.0, 0.0))
      ensures uPlot == Plot(U, 10.5, 1.0, Pair(0.0, 0.0))
      ensures fresh(plotState) && plotState.activePoint == 0 && plotState.cutFilter == AllCuts
    {
      consts := CouplingConstants(2.0, 5);
      pPlot := Plot(P, 0.75, 1.5, Pair(0.5, 0.0));
      xpPlot := Plot(Xp, xHeight, 1.0, Pair(0.0, 0.0));
      xmPlot := Plot(Xm, xHeight, 1.0, Pair(0.0, 0.0));
      uPlot := Plot(U, (4 * 5 + 1) as real / 2.0, 1.0, Pair(0.0, 0.0));
      plotState := new PlotState();
    }
  }

  /**
   * The index `update` moves to on an advance (the frame's duration ran out
   * or the right arrow was pressed): one further, but never onto the last
   * frame, which is reserved for the forced last page. With fewer than two
   * frames it stays put.
   */
  function Advance(index: nat, count: nat, advance: bool): (r: nat)
    ensures index < count ==> r < count
    ensures count >= 2 && index <= count - 2 ==> r <= count - 2
    ensures r == index || (advance && r == index + 1 && r + 1 < count)
    ensures advance && index + 2 < count ==> r == index + 1
  {
    if advance && index + 2 < count then index + 1 else index
  }

  /**
   * The advance as written: `frame_index < frames.len() - 2` with `usize`
   * arithmetic, where the subtraction panics (or, without overflow checks,
   * wraps and lets the index run past the end) when there are fewer than two
   * frames. None stands for that panic.
   */
  function AdvanceAsWritten(index: nat, count: nat, advance: bool): (r: Option<nat>)
    ensures r.None? <==> advance && count < 2
  {
    if !advance then Some(index)
    else if count < 2 then None
    else if index < count - 2 then Some(index + 1)
    else Some(index)
  }

  /** A presentation of a single frame panics on an advance. */
  lemma AsWrittenSingleFramePanics()
    ensures AdvanceAsWritten(0, 1, true) == None
    ensures Advance(0, 1, true) == 0
  {
  }

  /** With two or more frames the written advance is the corrected one. */
  lemma AdvanceAgrees(index: nat, count: nat, advance: bool)
    requires count >= 2 || !advance
    ensures AdvanceAsWritten(index, count, advance) == Some(Advance(index, count, advance))
  {
  }

  /**
   * The backward loop of `update`: step back while the index lies strictly
   * between the first and the last frame, stopping at the first frame
   * reached that has no duration.
   */
  method StepBack(frames: seq<Frame>, start: nat) returns (index: nat)
    requires start < |frames|
    ensures index <= start
    ensures 0 < start && start + 1 < |frames| ==> index < start
    ensures !(0 < start && start + 1 < |frames|) ==> index == start
    ensures index < start ==> index == 0 || frames[index].duration.None?
    ensures forall k :: index < k < start ==> frames[k].duration.Some?
  {
    index := start;
    while 0 < index && index + 1 < |frames|
      invariant index <= start
      invariant index < start ==> index + 1 < |frames|
      invariant !(0 < start && start + 1 < |frames|) ==> index == start
      invariant index < start ==> frames[index].duration.Some?
      invariant forall k :: index < k < start ==> frames[k].duration.Some?
      decreases index
    {
      index := index - 1;
      if frames[index].duration.None? {
        return;
      }
    }
  }

  /** The frame with its start time set to `now` when it had none (0). */
  function Stamped(f: Frame, now: real): (r: Frame)
    ensures r.duration == f.duration && r.consts == f.consts && r.plot == f.plot
    ensures f.startTime != 0.0 ==> r == f
  {
    if f.startTime == 0.0 then f.(startTime := now) else f
  }

  /**
   * Whether a frame's duration has run out at time `now`, with the frame's
   * start time set if it had none.
   */
  predicate Elapsed(f: Frame, now: real) {
    var g := Stamped(f, now);
    g.duration.Some? && now > g.startTime + g.duration.value
  }

  /** A frame without a duration never runs out; one with a negative duration has run out once it has started. */
  lemma ElapsedCases(f: Frame, now: real)
    ensures f.duration.None? ==> !Elapsed(f, now)
    ensures f.duration.Some? && f.duration.value < 0.0 && f.startTime != 0.0 && now >= f.startTime ==> Elapsed(f, now)
  {
  }

  /**
   * The index `update` moves to: the advance, then, when the left arrow was
   * pressed, a step back to the first earlier frame without a duration.
   */
  ghost predicate IsTarget(frames: seq<Frame>, index: nat, now: real, right: bool, left: bool, t: nat)
    requires index < |frames|
  {
    var advanced := Advance(index, |frames|, Elapsed(frames[index], now) || right);
    if !left then t == advanced
    else
      t <= advanced
      && (0 < advanced && advanced + 1 < |frames| ==> t < advanced)
      && (!(0 < advanced && advanced + 1 < |frames|) ==> t == advanced)
      && (t < advanced ==> t == 0 || frames[t].duration.None?)
      && (forall k :: t < k < advanced ==> frames[k].duration.Some?)
  }

  /** The backward step lands on a single index, so the target is unique. */
  lemma TargetUnique(frames: seq<Frame>, index: nat, now: real, right: bool, left: bool, t1: nat, t2: nat)
    requires index < |frames|
    requires IsTarget(frames, index, now, right, left, t1) && IsTarget(frames, index, now, right, left, t2)
    ensures t1 == t2
  {
    if left {
      assert t1 < t2 ==> Timed(frames, t2);
      assert t2 < t1 ==> Timed(frames, t1);
    }
  }

  /** Frame k exists and has a duration. */
  predicate Timed(frames: seq<Frame>, k: int) {
    0 <= k < |frames| && frames[k].duration.Some?
  }

  /** The index after the navigation of `update`. */
  method TargetIndex(frames: seq<Frame>, index: nat, now: real, right: bool, left: bool) returns (t: nat)
    requires index < |frames|
    ensures t < |frames|
    ensures IsTarget(frames, index, now, right, left, t)
  {
    t := Advance(index, |frames|, Elapsed(frames[index], now) || right);
    if left {
      t := StepBack(frames, t);
    }
  }

  /** The position of the first cached `Pxu` with the constants (`Iterator::position`). */
  method Position(pxu: seq<Pxu>, consts: CouplingConstants) returns (r: Option<nat>)
    ensures r.None? <==> forall i :: 0 <= i < |pxu| ==> pxu[i].consts != consts
    ensures r.Some? ==> r.value < |pxu| && pxu[r.value].consts == consts
    ensures r.Some? ==> forall i :: 0 <= i < r.value ==> pxu[i].consts != consts
  {
    var i := 0;
    while i < |pxu|
      invariant 0 <= i <= |pxu|
      invariant forall j :: 0 <= j < i ==> pxu[j].consts != consts
    {
      if pxu[i].consts == consts {
        return Some(i);
      }
      i := i + 1;
    }
    return None;
  }

  /** The viewer: the frames, the current one, the forced last page and the cached `Pxu` values. */
  class App {
    const plotData: PlotData
    var frames: seq<Frame>
    var frameIndex: nat
    var forceLastPage: bool
    var pxu: seq<Pxu>

    predicate Valid()
      reads this
    {
      frameIndex < |frames|
    }

    constructor (plotData: PlotData)
      ensures this.plotData == plotData
      ensures frames == [] && frameIndex == 0 && !forceLastPage && pxu == []
    {
      this.plotData := plotData;
      frames := [];
      frameIndex := 0;
      forceLastPage := false;
      pxu := [];
    }

    /**
     * `Frame::start` for frame i: the constant parts of its plot
     * descriptions are applied, the coupling constants and the cut filter
     * are replaced only when the frame has them, and the frame records its
     * start time.
     */
    method StartFrame(i: nat, time: real)
      requires i < |frames|
      modifies this`frames, plotData, plotData.plotState
      ensures frames == old(frames)[i := old(frames[i]).(startTime := time)]
      ensures var f := old(frames[i]);
        plotData.pPlot == Applied(old(plotData.pPlot), Lookup(f.plot, P))
        && plotData.xpPlot == Applied(old(plotData.xpPlot), Lookup(f.plot, Xp))
        && plotData.xmPlot == Applied(old(plotData.xmPlot), Lookup(f.plot, Xm))
        && plotData.uPlot == Applied(old(plotData.uPlot), Lookup(f.plot, U))
      ensures plotData.consts == if old(frames[i]).consts.Some? then old(frames[i]).consts.value else old(plotData.consts)
      ensures plotData.plotState.cutFilter ==
        if old(frames[i]).cutFilter.Some? then old(frames[i]).cutFilter.value else old(plotData.plotState.cutFilter)
      ensures plotData.plotState.activePoint == old(plotData.plotState.activePoint)
      ensures plotData.plotState.theme == old(plotData.plotState.theme)
      ensures plotData.plotState.fullscreenComponent == old(plotData.plotState.fullscreenComponent)
      ensures plotData.plotState.interactionPoint == old(plotData.plotState.interactionPoint)
      ensures plotData.plotState.interactionComponent == old(plotData.plotState.interactionComponent)
      ensures plotData.plotState.hovered == old(plotData.plotState.hovered)
      ensures plotData.plotState.dragged == old(plotData.plotState.dragged)
      ensures plotData.plotState.pathIndices == old(plotData.plotState.pathIndices)
    {
      var f := frames[i];
      plotData.pPlot := Applied(plotData.pPlot, Lookup(f.plot, P));
      plotData.xpPlot := Applied(plotData.xpPlot, Lookup(f.plot, Xp));
      plotData.xmPlot := Applied(plotData.xmPlot, Lookup(f.plot, Xm));
      plotData.uPlot := Applied(plotData.uPlot, Lookup(f.plot, U));
      if f.consts.Some? {
        plotData.consts := f.consts.value;
      }
      if f.cutFilter.Some? {
        plotData.plotState.cutFilter := f.cutFilter.value;
      }
      frames := frames[i := f.(startTime := time)];
    }

    /**
     * The frame part of `load`: the loaded frames replace the old ones, an
     * index past their end is reset to 0, and the current frame is started
     * at time 0. The loaded presentation must have a frame, since the
     * current frame is indexed.
     */
    method Load(loaded: seq<Frame>)
      requires |loaded| > 0
      modifies this, plotData, plotData.plotState
      ensures Valid()
      ensures frameIndex == if old(frameIndex) < |loaded| then old(frameIndex) else 0
      ensures frames == loaded[frameIndex := loaded[frameIndex].(startTime := 0.0)]
      ensures forceLastPage == old(forceLastPage) && pxu == old(pxu)
    {
      frames := loaded;
      if frameIndex >= |frames| {
        frameIndex := 0;
      }
      StartFrame(frameIndex, 0.0);
    }

    /**
     * The frame navigation of `update` at time `now`: the current frame gets
     * its start time if it has none, an elapsed duration or the right arrow
     * advances, the left arrow steps back, Enter toggles the forced last
     * page, and the new frame is started only when the index changed.
     * Returns the index of the frame shown.
     */
    method Navigate(now: real, right: bool, left: bool, enter: bool) returns (shown: nat)
      requires Valid()
      modifies this, plotData, plotData.plotState
      ensures Valid() && |frames| == |old(frames)| && pxu == old(pxu)
      ensures forceLastPage == (old(forceLastPage) != enter)
      ensures shown == if forceLastPage then |frames| - 1 else frameIndex
      ensures IsTarget(old(frames), old(frameIndex), now, right, left, frameIndex)
      ensures frameIndex != old(frameIndex) ==> frames[frameIndex].startTime == now
      ensures frames[old(frameIndex)] == Stamped(old(frames[frameIndex]), now)
      ensures frameIndex != old(frameIndex) ==> frames[frameIndex] == old(frames)[frameIndex].(startTime := now)
      ensures frameIndex != old(frameIndex) ==> var f := old(frames)[frameIndex];
        plotData.pPlot == Applied(old(plotData.pPlot), Lookup(f.plot, P))
        && plotData.xpPlot == Applied(old(plotData.xpPlot), Lookup(f.plot, Xp))
        && plotData.xmPlot == Applied(old(plotData.xmPlot), Lookup(f.plot, Xm))
        && plotData.uPlot == Applied(old(plotData.uPlot), Lookup(f.plot, U))
        && plotData.consts == (if f.consts.Some? then f.consts.value else old(plotData.consts))
        && plotData.plotState.cutFilter == (if f.cutFilter.Some? then f.cutFilter.value else old(plotData.plotState.cutFilter))
      ensures frameIndex == old(frameIndex) ==>
        plotData.consts == old(plotData.consts) && plotData.pPlot == old(plotData.pPlot)
        && plotData.xpPlot == old(plotData.xpPlot) && plotData.xmPlot == old(plotData.xmPlot) && plotData.uPlot == old(plotData.uPlot)
        && plotData.plotState.cutFilter == old(plotData.plotState.cutFilter)
      ensures forall k :: 0 <= k < |frames| && k != frameIndex && k != old(frameIndex) ==> frames[k] == old(frames[k])
    {
      var prev := frameIndex;
      var target := TargetIndex(frames, frameIndex, now, right, left);
      StampStart(now);
      frameIndex := target;
      if enter {
        forceLastPage := !forceLastPage;
      }
      if frameIndex != prev {
        StartFrame(frameIndex, now);
      }
      shown := if forceLastPage then |frames| - 1 else frameIndex;
    }

    /** A frame without a start time starts now. */
    method StampStart(now: real)
      requires Valid()
      modifies this`frames
      ensures frames == old(frames)[frameIndex := Stamped(old(frames[frameIndex]), now)]
    {
      if frames[frameIndex].startTime == 0.0 {
        frames := frames[frameIndex := frames[frameIndex].(startTime := now)];
      }
    }

    /**
     * The `Pxu` lookup of `update`: the first cached `Pxu` with the current
     * coupling constants is used; if there is none, a new one with those
     * constants and the state `initial` is appended and the active point is
     * reset to 0. `initial` stands for the one-point state the source builds
     * and moves numerically.
     */
    method SelectPxu(initial: StateValue) returns (index: nat)
      modifies this, plotData.plotState
      ensures index < |pxu| && pxu[index].consts == plotData.consts
      ensures frames == old(frames) && frameIndex == old(frameIndex) && forceLastPage == old(forceLastPage)
      ensures (exists i :: 0 <= i < |old(pxu)| && old(pxu)[i].consts == plotData.consts) ==>
        pxu == old(pxu) && plotData.plotState.activePoint == old(plotData.plotState.activePoint)
        && forall i :: 0 <= i < index ==> pxu[i].consts != plotData.consts
      ensures (forall i :: 0 <= i < |old(pxu)| ==> old(pxu)[i].consts != plotData.consts) ==>
        pxu == old(pxu) + [NewPxu(plotData.consts).(state := initial)] && plotData.plotState.activePoint == 0
      ensures plotData.plotState.cutFilter == old(plotData.plotState.cutFilter)
    {
      var found := Position(pxu, plotData.consts);
      if found.Some? {
        index := found.value;
      } else {
        plotData.plotState.activePoint := 0;
        pxu := pxu + [NewPxu(plotData.consts).(state := initial)];
        index := |pxu| - 1;
      }
    }

    /** The active point is reset to 0 whenever it is not a point of the selected `Pxu`'s state. */
    method ClampActivePoint(index: nat)
      requires index < |pxu|
      modifies plotData.plotState
      ensures var n := |pxu[index].state.points|;
        plotData.plotState.activePoint == if old(plotData.plotState.activePoint) >= n then 0 else old(plotData.plotState.activePoint)
      ensures |pxu[index].state.points| > 0 ==> plotData.plotState.activePoint < |pxu[index].state.points|
      ensures plotData.plotState.cutFilter == old(plotData.plotState.cutFilter)
    {
      if plotData.plotState.activePoint >= |pxu[index].state.points| {
        plotData.plotState.activePoint := 0;
      }
    }
  }
}
