/**
 * Paths of the `pxu` crate: a recorded path made of segments, and the
 * editable path, a list of copied states that can be read back as one
 * track per point.
 */
module PathModel {
  import opened Complex
  import opened Kinematics
  import opened PointModel
  import opened StateModel

  /** One stretch of a path on a single sheet, with its tracks in each plane. */
  datatype PathSegment = PathSegment(p: seq<seq<C>>, xp: seq<seq<C>>, xm: seq<seq<C>>, u: seq<seq<C>>, sheetData: SheetData)

  /**
   * A recorded path. The `name` is the field that `Pxu::get_path_by_name`
   * in pxu/src/lib.rs compares against.
   */
  datatype Path = Path(name: string, segments: seq<PathSegment>)

  /**
   * The track of point i in the plane over the states in order: one value
   * for each state that has a point i.
   */
  function Track(states: seq<StateValue>, i: nat, c: Component): seq<C> {
    if states == [] then []
    else
      var last := states[|states| - 1];
      Track(states[..|states| - 1], i, c) + (if i < |last.points| then [Get(last.points[i], c)] else [])
  }

  /** When every state has the same number of points, track i lists point i of every state. */
  lemma {:induction false} TrackOfEqualStates(states: seq<StateValue>, i: nat, c: Component)
    requires forall j :: 0 <= j < |states| ==> i < |states[j].points|
    ensures |Track(states, i, c)| == |states|
    ensures forall j :: 0 <= j < |states| ==> Track(states, i, c)[j] == Get(states[j].points[i], c)
  {
    if states != [] {
      TrackOfEqualStates(states[..|states| - 1], i, c);
    }
  }

  /** The states recorded while editing a path, and the plane being edited. */
  class EditablePath {
    var states: seq<StateValue>
    var component: Component

    /** `EditablePath::default`: no states, editing the p plane. */
    constructor Default()
      ensures states == [] && component == P
    {
      states := [];
      component := P;
    }

    /** `EditablePath::clear`. */
    method Clear()
      modifies this
      ensures states == [] && component == old(component)
    {
      states := [];
    }

    /** `EditablePath::push`: appends a copy of the state. */
    method Push(state: State)
      modifies this
      ensures states == old(states) + [state.Value()]
      ensures component == old(component)
    {
      states := states + [state.Value()];
    }

    /**
     * `EditablePath::get`: one track per point of the first state, track i
     * holding point i of each state in order. A state with more points than
     * the first is out of bounds in the source.
     */
    method Get(c: Component) returns (result: seq<seq<C>>)
      requires forall j :: 0 <= j < |states| ==> |states[j].points| <= |states[0].points|
      ensures states == [] ==> result == []
      ensures states != [] ==> |result| == |states[0].points|
      ensures forall i :: 0 <= i < |result| ==> result[i] == Track(states, i, c)
    {
      if states == [] {
        return [];
      }
      var n := |states[0].points|;
      result := seq(n, _ => []);
      for j := 0 to |states|
        invariant |result| == n
        invariant forall i :: 0 <= i < n ==> result[i] == Track(states[..j], i, c)
      {
        assert states[..j + 1][..j] == states[..j];
        var pts := states[j].points;
        for i := 0 to |pts|
          invariant |result| == n
          invariant forall k :: 0 <= k < i ==> result[k] == Track(states[..j + 1], k, c)
          invariant forall k :: i <= k < n ==> result[k] == Track(states[..j], k, c)
        {
          result := result[i := result[i] + [PointModel.Get(pts[i], c)]];
        }
      }
      assert states[..|states|] == states;
    }
  }
}
