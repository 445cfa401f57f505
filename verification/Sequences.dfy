/** Small facts about sequences used across the model. */
module Sequences {
  ghost predicate NoRepeats<T>(s: seq<T>) {
    forall i, j :: 0 <= i < j < |s| ==> s[i] != s[j]
  }

  lemma NoRepeatsAppend<T>(s: seq<T>, x: T)
    requires NoRepeats(s) && x !in s
    ensures NoRepeats(s + [x])
  {
  }

  /** A sequence without repeats is no longer than a set that holds it. */
  lemma {:induction false} Pigeonhole<T>(c: seq<T>, s: set<T>)
    requires NoRepeats(c) && forall x :: x in c ==> x in s
    ensures |c| <= |s|
  {
    if c != [] {
      var n := |c| - 1;
      Pigeonhole(c[..n], s - {c[n]});
    }
  }

  function Reversed<T>(s: seq<T>): seq<T> {
    if s == [] then [] else [s[|s| - 1]] + Reversed(s[..|s| - 1])
  }

  lemma ReversedAppend<T>(s: seq<T>, x: T)
    ensures Reversed(s + [x]) == [x] + Reversed(s)
  {
    assert (s + [x])[..|s|] == s;
  }

  /** A position of x in s. */
  ghost function Index<T>(s: seq<T>, x: T): (i: nat)
    requires x in s
    ensures i < |s| && s[i] == x
  {
    var i: nat :| i < |s| && s[i] == x;
    i
  }
}
