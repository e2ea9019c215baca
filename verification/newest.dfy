/**
 The `ORDER BY queue_sequence DESC OFFSET n` and `row_number() ... <= n` selections over one user's
 rows: the n newest members of a finite set of sequence numbers.
 */
module Newest {

  function Above(s: set<nat>, k: nat): set<nat> {
    set j | j in s && j > k
  }

  /** The members with fewer than `n` members above them. */
  function NewestOf(s: set<nat>, n: nat): set<nat> {
    set k | k in s && |Above(s, k)| < n
  }

  ghost function Least(s: set<nat>): (k: nat)
    requires s != {}
    ensures k in s && forall j | j in s :: k <= j
  {
    LeastExists(s);
    var k :| k in s && forall j | j in s :: k <= j;
    k
  }

  lemma {:induction false} LeastExists(s: set<nat>)
    requires s != {}
    ensures exists k :: k in s && forall j | j in s :: k <= j
  {
    var x :| x in s;
    var rest := s - {x};
    if rest == {} {
      assert s == {x};
    } else {
      LeastExists(rest);
      var k :| k in rest && forall j | j in rest :: k <= j;
      var m := if x < k then x else k;
      assert m in s && forall j | j in s :: m <= j by {
        assert forall j | j in s :: j == x || j in rest;
      }
    }
  }

  lemma SubsetSize<T>(a: set<T>, b: set<T>)
    requires a <= b
    ensures |a| <= |b| && (|a| == |b| ==> a == b)
  {
    assert b == a + (b - a);
  }

  /** Exactly `n` members survive, or all of them when there are fewer. */
  lemma {:induction false} NewestSize(s: set<nat>, n: nat)
    ensures |NewestOf(s, n)| == if |s| < n then |s| else n
    decreases |s|
  {
    if s == {} {
      assert NewestOf(s, n) == {};
    } else {
      var m := Least(s);
      var rest := s - {m};
      assert Above(s, m) == rest;
      forall k | k in rest ensures Above(s, k) == Above(rest, k) {}
      NewestSize(rest, n);
      assert NewestOf(s, n) == NewestOf(rest, n) + (if |rest| < n then {m} else {});
    }
  }

  /** Every survivor is newer than every member left out. */
  lemma NewestSplit(s: set<nat>, n: nat, kept: nat, dropped: nat)
    requires kept in NewestOf(s, n) && dropped in s && dropped !in NewestOf(s, n)
    ensures dropped < kept
  {
    if kept <= dropped {
      SubsetSize(Above(s, dropped), Above(s, kept));
    }
  }

  /** The survivors are the only set of that size with nothing newer outside it. */
  lemma NewestUnique(s: set<nat>, n: nat, top: set<nat>)
    requires top <= s && |top| == |NewestOf(s, n)|
    requires forall k, d | k in top && d in s - top :: d < k
    ensures top == NewestOf(s, n)
  {
    var newest := NewestOf(s, n);
    if k :| k in top && k !in newest {
      forall j | j in newest ensures j in top {
        NewestSplit(s, n, j, k);
        assert j in top || j in s - top;
      }
      SubsetSize(newest + {k}, top);
    } else {
      SubsetSize(top, newest);
      assert newest == top + (newest - top);
    }
  }
}
