/** Label sequences of any transition system. */
module Paths {
  ghost predicate Path<S(!new), L>(can: (S, L) -> bool, next: (S, L) -> S, s: S, labels: seq<L>, t: S)
    decreases |labels|
  {
    if labels == [] then s == t
    else can(s, labels[0]) && Path(can, next, next(s, labels[0]), labels[1..], t)
  }

  lemma {:induction false} JoinPaths<S(!new), L>(can: (S, L) -> bool, next: (S, L) -> S, s: S, labels: seq<L>, t: S,
                                                more: seq<L>, u: S)
    requires Path(can, next, s, labels, t) && Path(can, next, t, more, u)
    ensures Path(can, next, s, labels + more, u)
    decreases |labels|
  {
    if labels == [] {
      assert labels + more == more;
    } else {
      var all := labels + more;
      assert all[0] == labels[0] && all[1..] == labels[1..] + more;
      JoinPaths(can, next, next(s, labels[0]), labels[1..], t, more, u);
    }
  }
}
