/** Notions several components share. */
module Common {
  datatype Option<+T> = None | Some(value: T)

  ghost predicate NoDup<T>(xs: seq<T>) {
    forall i, j :: 0 <= i < j < |xs| ==> xs[i] != xs[j]
  }

  lemma {:induction false} DistinctSize<T>(xs: seq<T>)
    requires NoDup(xs)
    ensures |set x | x in xs| == |xs|
  {
    if xs != [] {
      DistinctSize(xs[1..]);
      assert (set x | x in xs) == (set x | x in xs[1..]) + {xs[0]};
    }
  }

  lemma UnionSize<T>(a: set<T>, b: set<T>)
    ensures |a + b| <= |a| + |b|
  {
    assert a + b == a + (b - a);
  }

  /** What a sequence of distinct members leaves of a set. */
  lemma LeftSize<T>(all: set<T>, xs: seq<T>, left: set<T>)
    requires NoDup(xs) && (forall x :: x in xs ==> x in all) && (forall x :: x in left <==> x in all && x !in xs)
    ensures |left| + |xs| == |all|
  {
    DistinctSize(xs);
    assert all == left + (set x | x in xs);
  }

  lemma SubsetSize<T>(a: set<T>, b: set<T>)
    requires a <= b
    ensures |a| <= |b|
  {
    assert b == a + (b - a);
  }
}

module AuditStatus {
  /** The status of an audit row; `Scored` is the source's "scoring". */
  datatype Status = Queued | Crawling | Analyzing | Scored | Completed | Failed | InsufficientEvidence
}
