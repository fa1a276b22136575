/**
 * The path registry of the `make-paths` tool: paths and start states stored
 * by name, a record of the names that were asked for, and a report of the
 * paths that nobody asked for.
 */
module PathRegistry {
  import opened Wrappers
  import opened StateModel
  import opened PathModel
  import opened Text

  const ALL_USED: string := "All paths were used."
  const NOT_USED_HEADER: string := "The following paths were not used:"

  /** The report line of one unused path: `- "name"`. */
  function UnusedLine(name: string): string {
    "- \"" + name + "\""
  }

  /** The header followed by one line per unused name, in the order listed. */
  function Listing(unused: seq<string>): (lines: seq<string>)
    ensures |lines| == |unused| + 1 && lines[0] == NOT_USED_HEADER
    ensures forall i :: 0 <= i < |unused| ==> lines[i + 1] == UnusedLine(unused[i])
  {
    if unused == [] then [NOT_USED_HEADER]
    else Listing(unused[..|unused| - 1]) + [UnusedLine(unused[|unused| - 1])]
  }

  /** The lines of `get_statistics` for the unused names in the order listed. */
  function StatisticsLines(unused: seq<string>): seq<string> {
    if unused == [] then [ALL_USED] else Listing(unused)
  }

  /** The report is exactly "All paths were used." when the unused list is empty, and something else otherwise. */
  lemma StatisticsAllUsed(unused: seq<string>)
    ensures JoinWith(StatisticsLines(unused), "\n") == ALL_USED <==> unused == []
  {
    if unused != [] {
      var lines := StatisticsLines(unused);
      JoinStartsWithFirst(lines, "\n");
      assert lines[0] == NOT_USED_HEADER;
      assert JoinWith(lines, "\n")[0] == JoinWith(lines, "\n")[..|lines[0]|][0] == NOT_USED_HEADER[0];
      assert ALL_USED[0] != NOT_USED_HEADER[0];
    }
  }

  /** The names of `order` that were not seen, in order (`filter(|k| !seen.contains(k))`). */
  function Unseen(order: seq<string>, seen: set<string>): (r: seq<string>)
    ensures forall k :: k in r <==> k in order && k !in seen
    ensures |r| <= |order|
  {
    if order == [] then []
    else Unseen(order[..|order| - 1], seen) + (if order[|order| - 1] in seen then [] else [order[|order| - 1]])
  }

  /** A listing of the keys of a map: each key once (the map's iteration order, which the source leaves to the hash map). */
  predicate Enumerates<V>(order: seq<string>, m: map<string, V>) {
    (forall k :: k in order ==> k in m) && (forall k :: k in m ==> k in order) && forall i, j :: 0 <= i < j < |order| ==> order[i] != order[j]
  }

  /** The paths and starts stored by name, and the names asked for. */
  class PathProvider {
    var paths: map<string, Path>
    var starts: map<string, StateValue>
    var seen: set<string>

    /** `PathProvider::default`: nothing stored, nothing asked for. */
    constructor ()
      ensures paths == map[] && starts == map[] && seen == {}
    {
      paths := map[];
      starts := map[];
      seen := {};
    }

    /** `add`: stores the path and the start under the same name, replacing earlier ones. */
    method Add(name: string, path: Path, start: StateValue)
      modifies this
      ensures paths == old(paths)[name := path] && starts == old(starts)[name := start]
      ensures seen == old(seen)
    {
      paths := paths[name := path];
      starts := starts[name := start];
    }

    /** `get_path`: records the name as asked for, then returns the stored path or an error. */
    method GetPath(name: string) returns (r: Result<Path, string>)
      modifies this
      ensures seen == old(seen) + {name} && paths == old(paths) && starts == old(starts)
      ensures name in paths ==> r == Ok(paths[name])
      ensures name !in paths ==> r == Err("Could not find path for " + name)
    {
      seen := seen + {name};
      if name in paths {
        r := Ok(paths[name]);
      } else {
        r := Err("Could not find path for " + name);
      }
    }

    /** `get_start`: records the name as asked for, then returns the stored start or an error. */
    method GetStart(name: string) returns (r: Result<StateValue, string>)
      modifies this
      ensures seen == old(seen) + {name} && paths == old(paths) && starts == old(starts)
      ensures name in starts ==> r == Ok(starts[name])
      ensures name !in starts ==> r == Err("Could not find start for " + name)
    {
      seen := seen + {name};
      if name in starts {
        r := Ok(starts[name]);
      } else {
        r := Err("Could not find start for " + name);
      }
    }

    /**
     * `get_statistics`: the names of stored paths (not starts) that were
     * never asked for, listed in the iteration order `order` of the path map.
     */
    method GetStatistics(order: seq<string>) returns (report: string, unused: seq<string>)
      requires Enumerates(order, paths)
      ensures forall k :: k in unused <==> k in paths && k !in seen
      ensures forall i, j :: 0 <= i < j < |unused| ==> unused[i] != unused[j]
      ensures report == JoinWith(StatisticsLines(unused), "\n")
      ensures report == ALL_USED <==> paths.Keys <= seen
    {
      unused := FilterUnseen(order, seen);
      UnseenDistinct(order, seen);
      var lines := ReportLines(unused);
      report := JoinWith(lines, "\n");
      StatisticsAllUsed(unused);
      if unused != [] {
        assert unused[0] in paths && unused[0] !in seen;
      } else {
        assert forall k :: k in paths ==> k in order && k !in unused;
      }
    }
  }

  /** The loop of `get_statistics` that keeps the names not seen. */
  method FilterUnseen(order: seq<string>, seen: set<string>) returns (unused: seq<string>)
    ensures unused == Unseen(order, seen)
  {
    unused := [];
    for i := 0 to |order|
      invariant unused == Unseen(order[..i], seen)
    {
      assert order[..i + 1][..i] == order[..i];
      if order[i] !in seen {
        unused := unused + [order[i]];
      }
    }
    assert order[..|order|] == order;
  }

  /** The loop of `get_statistics` that pushes the report lines. */
  method ReportLines(unused: seq<string>) returns (lines: seq<string>)
    ensures lines == StatisticsLines(unused)
  {
    if unused == [] {
      lines := [ALL_USED];
    } else {
      lines := [NOT_USED_HEADER];
      for i := 0 to |unused|
        invariant lines == Listing(unused[..i])
      {
        assert unused[..i + 1][..i] == unused[..i];
        lines := lines + [UnusedLine(unused[i])];
      }
      assert unused[..|unused|] == unused;
    }
  }

  /** Filtering a list of distinct names keeps them distinct. */
  lemma {:induction false} UnseenDistinct(order: seq<string>, seen: set<string>)
    requires forall i, j :: 0 <= i < j < |order| ==> order[i] != order[j]
    ensures var r := Unseen(order, seen); forall i, j :: 0 <= i < j < |r| ==> r[i] != r[j]
  {
    if order != [] {
      var init := order[..|order| - 1];
      UnseenDistinct(init, seen);
      assert order[|order| - 1] !in init;
      assert order[|order| - 1] !in Unseen(init, seen);
    }
  }
}
