/** The order in which one provider batch is inserted: by time, then by provider id. */
module DonationOrder {
  import opened AlertTables

  /** Lexicographic order of provider ids. */
  predicate IdLeq(a: string, b: string) {
    a == "" || (b != "" && (a[0] < b[0] || (a[0] == b[0] && IdLeq(a[1..], b[1..]))))
  }

  predicate Leq(a: Donation, b: Donation) {
    a.occurredAt < b.occurredAt || (a.occurredAt == b.occurredAt && IdLeq(a.sourceId, b.sourceId))
  }

  lemma {:induction false} IdTotal(a: string, b: string)
    ensures IdLeq(a, b) || IdLeq(b, a)
    ensures IdLeq(a, b) && IdLeq(b, a) ==> a == b
  {
    if a != "" && b != "" {
      IdTotal(a[1..], b[1..]);
      assert a == [a[0]] + a[1..] && b == [b[0]] + b[1..];
    }
  }

  lemma {:induction false} IdTransitive(a: string, b: string, c: string)
    requires IdLeq(a, b) && IdLeq(b, c)
    ensures IdLeq(a, c)
  {
    if a != "" && a[0] == b[0] && b[0] == c[0] {
      IdTransitive(a[1..], b[1..], c[1..]);
    }
  }

  lemma LeqTransitive(a: Donation, b: Donation, c: Donation)
    requires Leq(a, b) && Leq(b, c)
    ensures Leq(a, c)
  {
    if a.occurredAt == b.occurredAt == c.occurredAt {
      IdTransitive(a.sourceId, b.sourceId, c.sourceId);
    }
  }

  ghost predicate Sorted(ds: seq<Donation>) {
    forall i, j | 0 <= i < j < |ds| :: Leq(ds[i], ds[j])
  }

  /** Places a donation after every one that is not greater, so equal ones keep their order. */
  function Place(d: Donation, ds: seq<Donation>): seq<Donation> {
    if ds == [] || (Leq(d, ds[0]) && !Leq(ds[0], d)) then [d] + ds
    else [ds[0]] + Place(d, ds[1..])
  }

  /** A stable sort of a copy of the batch. */
  function Ordered(ds: seq<Donation>): seq<Donation> {
    if ds == [] then [] else Place(ds[|ds| - 1], Ordered(ds[..|ds| - 1]))
  }

  lemma {:induction false} PlaceKeeps(d: Donation, ds: seq<Donation>)
    ensures multiset(Place(d, ds)) == multiset(ds) + multiset{d}
  {
    if ds != [] && !(Leq(d, ds[0]) && !Leq(ds[0], d)) {
      PlaceKeeps(d, ds[1..]);
      assert ds == [ds[0]] + ds[1..];
    }
  }

  /** A list whose first element precedes a sorted rest is sorted. */
  lemma SortedCons(d: Donation, ds: seq<Donation>)
    requires Sorted(ds) && forall e | e in ds :: Leq(d, e)
    ensures Sorted([d] + ds)
  {}

  lemma {:induction false} PlaceSorted(d: Donation, ds: seq<Donation>)
    requires Sorted(ds)
    ensures Sorted(Place(d, ds))
  {
    if ds == [] || (Leq(d, ds[0]) && !Leq(ds[0], d)) {
      forall e | e in ds ensures Leq(d, e) {
        if e != ds[0] {
          LeqTransitive(d, ds[0], e);
        }
      }
      SortedCons(d, ds);
    } else {
      var rest := Place(d, ds[1..]);
      PlaceSorted(d, ds[1..]);
      PlaceKeeps(d, ds[1..]);
      IdTotal(d.sourceId, ds[0].sourceId);
      forall e | e in rest ensures Leq(ds[0], e) {
        assert e in multiset(rest);
        assert e == d || e in ds[1..];
      }
      SortedCons(ds[0], rest);
    }
  }

  /** The insertion order is sorted, and it is the batch itself: nothing is lost or added. */
  lemma {:induction false} OrderedSorts(ds: seq<Donation>)
    ensures Sorted(Ordered(ds)) && multiset(Ordered(ds)) == multiset(ds)
  {
    if ds != [] {
      var front := ds[..|ds| - 1];
      OrderedSorts(front);
      PlaceSorted(ds[|ds| - 1], Ordered(front));
      PlaceKeeps(ds[|ds| - 1], Ordered(front));
      assert ds == front + [ds[|ds| - 1]];
    }
  }

  /** A string precedes another where they differ first, or is its beginning. */
  predicate Precedes(a: string, b: string, p: nat) {
    && p <= |a| && p <= |b| && a[..p] == b[..p]
    && (p == |a| || (p < |b| && a[p] < b[p]))
  }

  /** The order of identifiers is the lexicographic one. */
  lemma {:induction false} IdLeqMeans(a: string, b: string)
    ensures IdLeq(a, b) <==> exists p: nat :: Precedes(a, b, p)
  {
    if a == "" {
      assert Precedes(a, b, 0);
    } else if b != "" {
      var s, t := a[1..], b[1..];
      IdLeqMeans(s, t);
      assert a == [a[0]] + s && b == [b[0]] + t;
      if a[0] < b[0] {
        assert Precedes(a, b, 0);
      } else if a[0] == b[0] {
        if IdLeq(s, t) {
          var p: nat :| Precedes(s, t, p);
          var q := p + 1;
          assert a[..q] == [a[0]] + s[..p] && b[..q] == [b[0]] + t[..p];
          assert Precedes(a, b, q);
        }
        forall p: nat | Precedes(a, b, p) ensures Precedes(s, t, p - 1) {
          assert p > 0 && a[..p][1..] == s[..p - 1] && b[..p][1..] == t[..p - 1];
        }
      }
    }
  }

  /** A batch is inserted from the oldest donation on; of two at the same time the smaller identifier comes first. */
  lemma OldestFirst(ds: seq<Donation>, i: nat, j: nat)
    requires i < j < |Ordered(ds)|
    ensures var a, b := Ordered(ds)[i], Ordered(ds)[j];
            && a.occurredAt <= b.occurredAt
            && (a.occurredAt == b.occurredAt ==> exists p: nat :: Precedes(a.sourceId, b.sourceId, p))
  {
    OrderedSorts(ds);
    IdLeqMeans(Ordered(ds)[i].sourceId, Ordered(ds)[j].sourceId);
  }
}
