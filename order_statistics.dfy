/** Rank selection with std::nth_element under std::greater: after the call the
    element at position k is the one a descending sort would put there, every element
    before it is not smaller and every element after it is not larger. */
module OrderStatistics {

  predicate Descending(s: seq<real>) {
    forall i, j | 0 <= i < j < |s| :: s[i] >= s[j]
  }

  /** Inserts x into a descending sequence in front of the first element below it. */
  function Insert(x: real, s: seq<real>): (r: seq<real>)
    ensures |r| == |s| + 1
  {
    if |s| == 0 then [x]
    else if x >= s[0] then [x] + s
    else [s[0]] + Insert(x, s[1..])
  }

  lemma {:induction false} InsertBelow(x: real, s: seq<real>, c: real)
    requires x <= c && forall i | 0 <= i < |s| :: s[i] <= c
    ensures forall i | 0 <= i < |s| + 1 :: Insert(x, s)[i] <= c
  {
    if |s| > 0 && x < s[0] {
      InsertBelow(x, s[1..], c);
      assert forall i | 1 <= i < |s| + 1 :: Insert(x, s)[i] == Insert(x, s[1..])[i - 1];
    }
  }

  /** A value at least every element of a descending sequence can go in front of it. */
  lemma DescendingCons(c: real, t: seq<real>)
    requires Descending(t) && forall i | 0 <= i < |t| :: t[i] <= c
    ensures Descending([c] + t)
  {
    var r := [c] + t;
    forall i, j | 0 <= i < j < |r|
      ensures r[i] >= r[j]
    {
      assert r[j] == t[j - 1];
      if i > 0 { assert r[i] == t[i - 1]; }
    }
  }

  /** The tail of a descending sequence is descending and bounded by its head. */
  lemma DescendingTail(s: seq<real>)
    requires Descending(s) && |s| > 0
    ensures Descending(s[1..])
    ensures forall i | 0 <= i < |s| :: s[i] <= s[0]
  {
    var t := s[1..];
    forall i, j | 0 <= i < j < |t|
      ensures t[i] >= t[j]
    {
      assert t[i] == s[i + 1] && t[j] == s[j + 1];
    }
    forall i | 0 < i < |s|
      ensures s[i] <= s[0]
    {
      assert s[0] >= s[i];
    }
  }

  lemma {:induction false} InsertDescending(x: real, s: seq<real>)
    requires Descending(s)
    ensures Descending(Insert(x, s))
  {
    if |s| > 0 {
      DescendingTail(s);
      if x >= s[0] {
        DescendingCons(x, s);
      } else {
        InsertDescending(x, s[1..]);
        InsertBelow(x, s[1..], s[0]);
        DescendingCons(s[0], Insert(x, s[1..]));
      }
    }
  }

  lemma {:induction false} InsertMultiset(x: real, s: seq<real>)
    ensures multiset(Insert(x, s)) == multiset(s) + multiset{x}
  {
    if |s| > 0 {
      assert s == [s[0]] + s[1..];
      if x < s[0] {
        InsertMultiset(x, s[1..]);
      }
    }
  }

  /** Inserting into a descending sequence keeps it descending and adds exactly the
      inserted value. */
  lemma InsertKeepsDescending(x: real, s: seq<real>)
    requires Descending(s)
    ensures Descending(Insert(x, s))
    ensures multiset(Insert(x, s)) == multiset(s) + multiset{x}
  {
    InsertDescending(x, s);
    InsertMultiset(x, s);
  }

  /** A descending arrangement of s (an insertion sort). */
  function SortDescending(s: seq<real>): (r: seq<real>)
    ensures Descending(r)
    ensures multiset(r) == multiset(s)
    ensures |r| == |s|
  {
    if |s| == 0 then []
    else
      assert s == [s[0]] + s[1..];
      var rest := SortDescending(s[1..]);
      InsertKeepsDescending(s[0], rest);
      Insert(s[0], rest)
  }

  /** The first element of a nonempty descending sequence is its largest. */
  lemma DescendingHeadIsMaximum(a: seq<real>, x: real)
    requires Descending(a) && x in multiset(a)
    ensures x <= a[0]
  {
    var i :| 0 <= i < |a| && a[i] == x;
  }

  /** Two descending arrangements of the same multiset begin alike, and the rest of
      each is descending and holds the same multiset. */
  lemma SameHead(a: seq<real>, b: seq<real>)
    requires Descending(a) && Descending(b) && multiset(a) == multiset(b) && |a| > 0 && |b| > 0
    ensures a[0] == b[0]
    ensures Descending(a[1..]) && Descending(b[1..]) && multiset(a[1..]) == multiset(b[1..])
  {
    assert a[0] in multiset(b) && b[0] in multiset(a);
    DescendingHeadIsMaximum(b, a[0]);
    DescendingHeadIsMaximum(a, b[0]);
    DescendingTail(a);
    DescendingTail(b);
    MultisetTail(a);
    MultisetTail(b);
  }

  lemma MultisetTail(a: seq<real>)
    requires |a| > 0
    ensures multiset(a[1..]) == multiset(a) - multiset{a[0]}
  {
    assert a == [a[0]] + a[1..];
  }

  /** Two descending arrangements of the same multiset are the same sequence. */
  lemma {:induction false} DescendingPermutationsEqual(a: seq<real>, b: seq<real>)
    requires Descending(a) && Descending(b)
    requires multiset(a) == multiset(b)
    ensures a == b
    decreases |a|
  {
    assert |a| == |multiset(a)| == |multiset(b)| == |b|;
    if |a| > 0 {
      SameHead(a, b);
      DescendingPermutationsEqual(a[1..], b[1..]);
      assert a == [a[0]] + a[1..] && b == [b[0]] + b[1..];
    }
  }

  /** The (k+1)-th largest element of s, counting repeated values. */
  function KthLargest(s: seq<real>, k: int): real
    requires 0 <= k < |s|
  {
    SortDescending(s)[k]
  }

  /** t is a valid result of std::nth_element(t.begin(), t.begin() + k, t.end(),
      std::greater<double>()) applied to s. */
  predicate NthElementOutcome(s: seq<real>, t: seq<real>, k: int) {
    && multiset(t) == multiset(s)
    && |t| == |s|
    && 0 <= k < |t|
    && (forall i | 0 <= i < k :: t[i] >= t[k])
    && (forall i | k < i < |t| :: t[i] <= t[k])
  }

  /** nth_element as the model performs it: one valid outcome, the descending sort. */
  function NthElement(s: seq<real>, k: int): (t: seq<real>)
    requires 0 <= k < |s|
    ensures NthElementOutcome(s, t, k)
  {
    SortDescending(s)
  }

  lemma ConcatDescending(a: seq<real>, x: real, b: seq<real>)
    requires Descending(a) && Descending(b)
    requires forall i | 0 <= i < |a| :: a[i] >= x
    requires forall i | 0 <= i < |b| :: b[i] <= x
    ensures Descending(a + [x] + b)
  {
    var c := a + [x] + b;
    forall i, j | 0 <= i < j < |c|
      ensures c[i] >= c[j]
    {
      if j < |a| {
      } else if i < |a| {
        assert c[i] == a[i] >= x;
        if j > |a| { assert c[j] == b[j - |a| - 1]; }
      } else if i == |a| {
        assert c[j] == b[j - |a| - 1];
      } else {
        assert c[i] == b[i - |a| - 1] && c[j] == b[j - |a| - 1];
      }
    }
  }

  /** Sorting keeps a lower bound on every element. */
  lemma SortedAbove(s: seq<real>, x: real)
    requires forall i | 0 <= i < |s| :: s[i] >= x
    ensures forall i | 0 <= i < |SortDescending(s)| :: SortDescending(s)[i] >= x
  {
    var a := SortDescending(s);
    forall i | 0 <= i < |a|
      ensures a[i] >= x
    {
      assert a[i] in multiset(s);
      var m :| 0 <= m < |s| && s[m] == a[i];
    }
  }

  /** Sorting keeps an upper bound on every element. */
  lemma SortedBelow(s: seq<real>, x: real)
    requires forall i | 0 <= i < |s| :: s[i] <= x
    ensures forall i | 0 <= i < |SortDescending(s)| :: SortDescending(s)[i] <= x
  {
    var b := SortDescending(s);
    forall i | 0 <= i < |b|
      ensures b[i] <= x
    {
      assert b[i] in multiset(s);
      var m :| 0 <= m < |s| && s[m] == b[i];
    }
  }

  /** Sorting the parts before and after position k and putting t[k] between them
      rearranges t. */
  lemma SortedPartsPermute(t: seq<real>, k: int)
    requires 0 <= k < |t|
    ensures multiset(SortDescending(t[..k]) + [t[k]] + SortDescending(t[k + 1..])) == multiset(t)
  {
    assert t == t[..k] + [t[k]] + t[k + 1..];
  }

  /** Whatever arrangement nth_element leaves, its element at k is the (k+1)-th largest
      of the input; so the value read from position k does not depend on the
      implementation, and the model's choice of outcome loses nothing. */
  lemma NthElementValue(s: seq<real>, t: seq<real>, k: int)
    requires NthElementOutcome(s, t, k)
    ensures t[k] == KthLargest(s, k)
  {
    var front, back := t[..k], t[k + 1..];
    forall i | 0 <= i < |front|
      ensures front[i] >= t[k]
    {
      assert front[i] == t[i];
    }
    forall i | 0 <= i < |back|
      ensures back[i] <= t[k]
    {
      assert back[i] == t[k + 1 + i];
    }
    SortedAbove(front, t[k]);
    SortedBelow(back, t[k]);
    var c := SortDescending(front) + [t[k]] + SortDescending(back);
    ConcatDescending(SortDescending(front), t[k], SortDescending(back));
    SortedPartsPermute(t, k);
    DescendingPermutationsEqual(c, SortDescending(s));
    assert c[k] == t[k];
  }

  /** Ranks are ordered: a smaller rank never selects a smaller value. */
  lemma KthLargestMonotone(s: seq<real>, j: int, k: int)
    requires 0 <= j <= k < |s|
    ensures KthLargest(s, j) >= KthLargest(s, k)
  {
  }
}
