/** Facts about sequences that proofs cite one at a time. */
module Sequences {

  lemma Assoc<T>(a: seq<T>, b: seq<T>, c: seq<T>)
    ensures (a + b) + c == a + (b + c)
  {
  }

  lemma Parts<T>(front: seq<T>, back: seq<T>)
    ensures (front + back)[..|front|] == front && (front + back)[|front|..] == back
  {
  }

  lemma Peel<T>(a: seq<T>, b: seq<T>)
    requires a != []
    ensures (a + b)[0] == a[0] && (a + b)[1..] == a[1..] + b
  {
  }

  lemma Cons<T>(a: seq<T>)
    requires a != []
    ensures a == [a[0]] + a[1..]
  {
  }

  lemma NoneAdded<T>(a: seq<T>)
    ensures a + [] == a && [] + a == a
  {
  }

  lemma FirstIsIn<T>(s: seq<T>)
    ensures s == [] || s[0] in s
  {
  }

  lemma DropTwice<T>(s: seq<T>, a: nat, b: nat)
    requires a + b <= |s|
    ensures s[a..][b..] == s[a + b..]
  {
  }

  predicate Rises(from: seq<nat>) {
    forall i, j | 0 <= i < j < |from| :: from[i] < from[j]
  }

  predicate TakenFrom<T(==)>(all: seq<T>, picked: seq<T>, from: seq<nat>) {
    |from| == |picked| && forall i | 0 <= i < |from| :: from[i] < |all| && picked[i] == all[from[i]]
  }

  predicate Accepts<T>(all: seq<T>, from: seq<nat>, keep: T -> bool) {
    forall k | 0 <= k < |all| :: k in from <==> keep(all[k])
  }

  /** What is picked: exactly the elements that `keep` accepts, in order, with where each came from. */
  predicate Picks<T(==)>(all: seq<T>, picked: seq<T>, from: seq<nat>, keep: T -> bool) {
    Rises(from) && TakenFrom(all, picked, from) && Accepts(all, from, keep)
  }

  /** Each position moves back by one. */
  function Later(from: seq<nat>): (moved: seq<nat>)
    ensures |moved| == |from| && forall i | 0 <= i < |from| :: moved[i] == from[i] + 1
  {
    seq(|from|, i requires 0 <= i < |from| => from[i] + 1)
  }

  lemma PicksNext<T>(all: seq<T>, picked: seq<T>, later: seq<nat>, keep: T -> bool) returns (from: seq<nat>)
    requires all != [] && Picks(all[1..], picked, later, keep)
    ensures Picks(all, if keep(all[0]) then [all[0]] + picked else picked, from, keep)
  {
    hide TakenFrom, Accepts;
    from := if keep(all[0]) then [0] + Later(later) else Later(later);
    TakenLater(all, picked, later);
    AcceptsLater(all, later, keep);
  }

  lemma TakenLater<T>(all: seq<T>, picked: seq<T>, later: seq<nat>)
    requires all != [] && TakenFrom(all[1..], picked, later)
    ensures TakenFrom(all, picked, Later(later)) && TakenFrom(all, [all[0]] + picked, [0] + Later(later))
  {
  }

  lemma AcceptsLater<T>(all: seq<T>, later: seq<nat>, keep: T -> bool)
    requires all != [] && Accepts(all[1..], later, keep)
    ensures Accepts(all, if keep(all[0]) then [0] + Later(later) else Later(later), keep)
  {
    forall k | 0 <= k < |all|
      ensures k in (if keep(all[0]) then [0] + Later(later) else Later(later)) <==> keep(all[k])
    {
      LaterHolds(later, k);
      if k > 0 {
        assert all[1..][k - 1] == all[k];
      }
    }
  }

  lemma LaterHolds(from: seq<nat>, k: nat)
    ensures k in Later(from) <==> k > 0 && k - 1 in from
  {
    if k > 0 && k - 1 in from {
      var i :| 0 <= i < |from| && from[i] == k - 1;
      assert Later(from)[i] == k;
    }
  }
}
