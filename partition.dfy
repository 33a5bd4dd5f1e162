/** How a revision-history task divides its dump file paths between ETL
    instances: a collection of more than one path is cut into two contiguous
    slices at `len / 2` (integer division, so the first slice gets the floor
    half); a collection of at most one path, the empty one included, is
    handed whole to a single instance. */
module Partition {

  /** The paths of all parts, in part order. */
  function Concat<T>(parts: seq<seq<T>>): (r: seq<T>)
  {
    if parts == [] then [] else parts[0] + Concat(parts[1..])
  }

  /** Every part's length adds up to the length of the concatenation. */
  lemma {:induction false} ConcatLength<T>(parts: seq<seq<T>>)
    ensures |Concat(parts)| == SumOfLengths(parts)
  {
    if parts != [] {
      ConcatLength(parts[1..]);
    }
  }

  /** The total of the parts' sizes. */
  function SumOfLengths<T>(parts: seq<seq<T>>): nat
  {
    if parts == [] then 0 else |parts[0]| + SumOfLengths(parts[1..])
  }

  /** The two slices `paths[0:n/2]` and `paths[n/2:]`, n = |paths|. */
  function Halves<T>(paths: seq<T>): (r: (seq<T>, seq<T>))
    ensures r.0 + r.1 == paths
    ensures |r.0| == |paths| / 2 && |r.1| == |paths| - |paths| / 2
    ensures |r.0| <= |r.1| <= |r.0| + 1
    ensures |paths| > 1 ==> r.0 != [] && r.1 != []
  {
    var mid := |paths| / 2;
    (paths[..mid], paths[mid..])
  }

  /** The list of path lists, one per ETL instance, in construction order. */
  function Plan<T>(paths: seq<T>): (parts: seq<seq<T>>)
    ensures Concat(parts) == paths
    ensures |parts| == if |paths| > 1 then 2 else 1
    ensures |paths| <= 1 ==> parts == [paths]
    ensures |paths| > 1 ==> |parts[0]| == |paths| / 2 && |parts[1]| == |paths| - |paths| / 2
    ensures |paths| > 0 ==> forall i :: 0 <= i < |parts| ==> parts[i] != []
  {
    if |paths| > 1 then
      var h := Halves(paths);
      assert Concat([h.1]) == h.1 + Concat([]);
      [h.0, h.1]
    else
      assert Concat([paths]) == paths + Concat([]);
      [paths]
  }

  /** Each path position lands in exactly one part: the parts are disjoint
      slices of the input, stated by position so that repeated path strings
      are counted once per occurrence. */
  lemma PlanPositions<T>(paths: seq<T>, k: nat)
    requires k < |paths|
    ensures var parts := Plan(paths);
            if |parts| == 1 then parts[0][k] == paths[k]
            else if k < |parts[0]| then parts[0][k] == paths[k]
            else parts[1][k - |parts[0]|] == paths[k]
  {
    var parts := Plan(paths);
    if |parts| == 2 {
      assert parts[0] + parts[1] == paths;
    }
  }

  /** The sizes of the parts sum to the number of paths. */
  lemma PlanSizesSum<T>(paths: seq<T>)
    ensures SumOfLengths(Plan(paths)) == |paths|
  {
    ConcatLength(Plan(paths));
  }

  /** The seven-path collection becomes two parts of 3 and 4 paths that
      rebuild the original in order. */
  lemma SevenPathsSplit<T>(paths: seq<T>)
    requires |paths| == 7
    ensures Plan(paths) == [paths[..3], paths[3..]]
  {
  }

  /** An odd count gives the floor half to the first part: 5 paths become
      parts of 2 and 3. */
  lemma FivePathsSplit<T>(paths: seq<T>)
    requires |paths| == 5
    ensures |Plan(paths)[0]| == 2 && |Plan(paths)[1]| == 3
  {
  }
}
