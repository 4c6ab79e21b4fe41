/** Concatenation of a sequence of sequences. */
module Sequences {

  function Concat<T>(groups: seq<seq<T>>): seq<T> {
    if groups == [] then [] else Concat(groups[..|groups| - 1]) + groups[|groups| - 1]
  }

  lemma ConcatPush<T>(groups: seq<seq<T>>, g: seq<T>)
    ensures Concat(groups + [g]) == Concat(groups) + g
  {
    assert (groups + [g])[..|groups|] == groups;
  }
}
