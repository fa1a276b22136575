/** Joining lines of text, as `join` does on a list of strings. */
module Text {

  /** The parts with `sep` between each two neighbours (`[..].join(sep)`). */
  function JoinWith(parts: seq<string>, sep: string): string {
    if parts == [] then ""
    else if |parts| == 1 then parts[0]
    else JoinWith(parts[..|parts| - 1], sep) + sep + parts[|parts| - 1]
  }

  /** A joined text starts with its first part. */
  lemma {:induction false} JoinStartsWithFirst(parts: seq<string>, sep: string)
    requires parts != []
    ensures |JoinWith(parts, sep)| >= |parts[0]| && JoinWith(parts, sep)[..|parts[0]|] == parts[0]
  {
    if |parts| > 1 {
      JoinStartsWithFirst(parts[..|parts| - 1], sep);
      var prev := JoinWith(parts[..|parts| - 1], sep);
      assert JoinWith(parts, sep) == prev + (sep + parts[|parts| - 1]);
      assert JoinWith(parts, sep)[..|parts[0]|] == prev[..|parts[0]|];
    }
  }
}
