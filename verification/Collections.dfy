/** Shared vocabulary: optional values, sequences without repeats, sizes of sets. */
module Collections {
  datatype Option<T> = None | Some(value: T)

  predicate NoDup<T(==)>(s: seq<T>) { forall i, j :: 0 <= i < j < |s| ==> s[i] != s[j] }

  predicate Increasing(s: seq<int>) { forall i, j :: 0 <= i < j < |s| ==> s[i] < s[j] }

  lemma SubsetCard<T>(a: set<T>, b: set<T>)
    requires a <= b
    ensures |a| <= |b|
    ensures a != b ==> |a| < |b|
  {
    assert b == a + (b - a) && a !! b - a;
  }

  lemma IncreasingAppend(s: seq<int>, n: int)
    requires Increasing(s) && forall i :: i in s ==> i < n
    ensures Increasing(s + [n])
  {
    assert forall i :: 0 <= i < |s| ==> s[i] in s;
  }

  /** The last arrival, sent at once or put at the end, is out of order exactly in front of a waiting one. */
  lemma OrderAfterArrival(sent: seq<int>, waiting: seq<int>, sent': seq<int>, waiting': seq<int>, n: int, atOnce: bool)
    requires Increasing(sent + waiting) && forall i :: i in sent + waiting ==> i < n
    requires if atOnce then sent' == sent + [n] && waiting' == waiting else sent' == sent && waiting' == waiting + [n]
    ensures Increasing(sent' + waiting') <==> !(waiting != [] && atOnce)
    ensures forall i :: i in sent' + waiting' <==> i in sent + waiting || i == n
  {
    var all := sent' + waiting';
    if waiting != [] && atOnce {
      assert waiting[0] in sent + waiting;
      assert all[|sent|] == n && all[|sent| + 1] == waiting[0];
    } else {
      IncreasingAppend(sent + waiting, n);
      assert all == sent + waiting + [n];
    }
  }

  /** A repetition-free listing of as many elements of `s` as `s` has contains all of them. */
  lemma DistinctFills<T>(p: seq<T>, s: seq<T>)
    requires |p| == |s| && NoDup(p) && NoDup(s) && forall c :: c in p ==> c in s
    ensures forall c :: c in s <==> c in p
  {
    DistinctCount(p);
    DistinctCount(s);
    var ps, ss := (set c | c in p), (set c | c in s);
    forall c | c in s ensures c in p {
      if c !in p {
        assert c in ss && ps <= ss - {c};
        SubsetCard(ps, ss - {c});
        assert false;
      }
    }
  }

  lemma {:induction false} DistinctCount<T>(s: seq<T>)
    requires NoDup(s)
    ensures |(set c | c in s)| == |s|
  {
    if s != [] {
      var init, last := s[..|s| - 1], s[|s| - 1];
      DistinctCount(init);
      assert (set c | c in s) == (set c | c in init) + {last};
    }
  }
}
