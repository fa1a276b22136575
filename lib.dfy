/** The top-level record of the `pxu` crate: coupling constants, the state and the recorded paths. */
module PxuLib {
  import opened Wrappers
  import opened Kinematics
  import opened StateModel
  import opened PathModel

  /** A `Pxu`; its contours are not part of this model. */
  datatype Pxu = Pxu(consts: CouplingConstants, state: StateValue, paths: seq<Path>)

  /** `Pxu::new`: the given constants, the default state and no paths. */
  function NewPxu(consts: CouplingConstants): (r: Pxu)
    ensures r.consts == consts && r.paths == [] && r.state.points == [] && !r.state.unlocked
  {
    Pxu(consts, DefaultState, [])
  }

  /** Path i has the name and no earlier path has it. */
  predicate IsFirstNamed(paths: seq<Path>, name: string, i: int) {
    0 <= i < |paths| && paths[i].name == name && forall j :: 0 <= j < i ==> paths[j].name != name
  }

  /** The first path with the name, in order (`Iterator::find`). */
  function FindPath(paths: seq<Path>, name: string): (r: Option<Path>)
    ensures r.None? <==> forall i :: 0 <= i < |paths| ==> paths[i].name != name
    ensures r.Some? ==> r.value.name == name
    ensures r.Some? ==> exists i :: IsFirstNamed(paths, name, i) && paths[i] == r.value
  {
    if paths == [] then None
    else if paths[0].name == name then Some(paths[0])
    else
      var r := FindPath(paths[1..], name);
      if r.Some? then
        var i :| IsFirstNamed(paths[1..], name, i) && paths[1..][i] == r.value;
        assert IsFirstNamed(paths, name, i + 1);
        r
      else r
  }

  /** `Pxu::get_path_by_name`. */
  function GetPathByName(pxu: Pxu, name: string): (r: Option<Path>)
    ensures r.None? <==> forall i :: 0 <= i < |pxu.paths| ==> pxu.paths[i].name != name
    ensures r.Some? ==> r.value.name == name && r.value in pxu.paths
  {
    FindPath(pxu.paths, name)
  }
}
