/** The four risk tiers every scanned entity and every alert carries, their
    total order, and the stable worst-first ordering that both the backend's
    alert sort and the client's `sortByRisk` produce. */
module Risk {
  import opened Seqs

  datatype RiskLevel = Safe | Low | Medium | High

  /** Position of a tier in the total order safe < low < medium < high. */
  function Severity(r: RiskLevel): (n: nat)
    ensures n <= 3
    ensures n == 0 <==> r == Safe
    ensures n == 3 <==> r == High
  {
    match r
    case Safe => 0
    case Low => 1
    case Medium => 2
    case High => 3
  }

  /** The elements of `s` whose tier is `l`, in their original order. */
  function OfLevel<T>(s: seq<T>, level: T -> RiskLevel, l: RiskLevel): (r: seq<T>)
    ensures forall i :: 0 <= i < |r| ==> level(r[i]) == l
  {
    Filter(s, x => level(x) == l)
  }

  /** Buckets distribute over concatenation. */
  lemma OfLevelAppend<T>(a: seq<T>, b: seq<T>, level: T -> RiskLevel, l: RiskLevel)
    ensures OfLevel(a + b, level, l) == OfLevel(a, level, l) + OfLevel(b, level, l)
  {
    FilterAppend(a, b, x => level(x) == l);
  }

  /** An element is in bucket `l` exactly when it is in `s` at tier `l`. */
  lemma OfLevelMembership<T>(s: seq<T>, level: T -> RiskLevel, l: RiskLevel, x: T)
    ensures x in OfLevel(s, level, l) <==> x in s && level(x) == l
  {
    FilterMembership(s, x => level(x) == l, x);
  }

  /** A bucket no element belongs to is empty. */
  lemma OfLevelNone<T>(s: seq<T>, level: T -> RiskLevel, l: RiskLevel)
    requires forall i :: 0 <= i < |s| ==> level(s[i]) != l
    ensures OfLevel(s, level, l) == []
  {
    FilterDropsAll(s, x => level(x) == l);
  }

  /** A stable sort of `s` on the key `Severity(level(x))`, descending: all
      high elements, then medium, then low, then safe, each group keeping the
      input order. This is the one result a stable sort on that key can give
      (see WorstFirstUnique). */
  function WorstFirst<T>(s: seq<T>, level: T -> RiskLevel): (r: seq<T>)
    ensures |r| == |s|
  {
    BucketsMultiset(s, level);
    assert |multiset(s)| == |s|;
    OfLevel(s, level, High) + OfLevel(s, level, Medium) + OfLevel(s, level, Low) + OfLevel(s, level, Safe)
  }

  /** `s` is ordered from the most to the least severe tier. */
  ghost predicate IsWorstFirst<T>(s: seq<T>, level: T -> RiskLevel)
  {
    forall i, j :: 0 <= i < j < |s| ==> Severity(level(s[i])) >= Severity(level(s[j]))
  }

  lemma ConcatWorstFirst<T>(a: seq<T>, b: seq<T>, level: T -> RiskLevel)
    requires IsWorstFirst(a, level) && IsWorstFirst(b, level)
    requires forall i, j :: 0 <= i < |a| && 0 <= j < |b| ==> Severity(level(a[i])) >= Severity(level(b[j]))
    ensures IsWorstFirst(a + b, level)
  {
    forall i, j | 0 <= i < j < |a + b|
      ensures Severity(level((a + b)[i])) >= Severity(level((a + b)[j]))
    {
      if j < |a| {
      } else if i < |a| {
        assert (a + b)[j] == b[j - |a|];
      } else {
        assert (a + b)[i] == b[i - |a|] && (a + b)[j] == b[j - |a|];
      }
    }
  }

  /** The worst-first result is ordered by descending severity. */
  lemma WorstFirstSorted<T>(s: seq<T>, level: T -> RiskLevel)
    ensures IsWorstFirst(WorstFirst(s, level), level)
  {
    var h, m, l, z := OfLevel(s, level, High), OfLevel(s, level, Medium), OfLevel(s, level, Low), OfLevel(s, level, Safe);
    ConcatWorstFirst(h, m, level);
    ConcatWorstFirst(h + m, l, level);
    ConcatWorstFirst(h + m + l, z, level);
  }

  /** Peels the first element off a bucket. */
  lemma OfLevelCons<T>(s: seq<T>, level: T -> RiskLevel, l: RiskLevel)
    requires s != []
    ensures OfLevel(s, level, l) == (if level(s[0]) == l then [s[0]] else []) + OfLevel(s[1..], level, l)
  {
  }

  lemma {:induction false} BucketsMultiset<T>(s: seq<T>, level: T -> RiskLevel)
    ensures multiset(OfLevel(s, level, High)) + multiset(OfLevel(s, level, Medium))
            + multiset(OfLevel(s, level, Low)) + multiset(OfLevel(s, level, Safe)) == multiset(s)
  {
    if s == [] {
    } else {
      var x, u := s[0], s[1..];
      assert s == [x] + u;
      BucketsMultiset(u, level);
      OfLevelCons(s, level, High);
      OfLevelCons(s, level, Medium);
      OfLevelCons(s, level, Low);
      OfLevelCons(s, level, Safe);
      assert multiset(s) == multiset{x} + multiset(u);
    }
  }

  /** The worst-first result is a permutation of its input. */
  lemma WorstFirstPermutation<T>(s: seq<T>, level: T -> RiskLevel)
    ensures multiset(WorstFirst(s, level)) == multiset(s)
    ensures |WorstFirst(s, level)| == |s|
  {
    BucketsMultiset(s, level);
    assert |multiset(WorstFirst(s, level))| == |multiset(s)|;
  }

  lemma BucketOfBucket<T>(s: seq<T>, level: T -> RiskLevel, k: RiskLevel, l: RiskLevel)
    ensures OfLevel(OfLevel(s, level, k), level, l) == if k == l then OfLevel(s, level, k) else []
  {
    var b := OfLevel(s, level, k);
    if k == l {
      FilterKeepsAll(b, x => level(x) == l);
    } else {
      FilterDropsAll(b, x => level(x) == l);
    }
  }

  /** Stability: the elements of any one tier come out in their input order. */
  lemma WorstFirstStable<T>(s: seq<T>, level: T -> RiskLevel, l: RiskLevel)
    ensures OfLevel(WorstFirst(s, level), level, l) == OfLevel(s, level, l)
  {
    var h, m, lo, z := OfLevel(s, level, High), OfLevel(s, level, Medium), OfLevel(s, level, Low), OfLevel(s, level, Safe);
    assert WorstFirst(s, level) == h + m + lo + z;
    OfLevelOfFour(h, m, lo, z, level, l);
    var bh, bm, bl, bz := OfLevel(h, level, l), OfLevel(m, level, l), OfLevel(lo, level, l), OfLevel(z, level, l);
    BucketOfBucket(s, level, High, l);
    BucketOfBucket(s, level, Medium, l);
    BucketOfBucket(s, level, Low, l);
    BucketOfBucket(s, level, Safe, l);
    match l
    case High => assert bh + bm + bl + bz == h + [] + [] + [] == h;
    case Medium => assert bh + bm + bl + bz == [] + m + [] + [] == m;
    case Low => assert bh + bm + bl + bz == [] + [] + lo + [] == lo;
    case Safe => assert bh + bm + bl + bz == [] + [] + [] + z == z;
  }

  lemma OfLevelOfFour<T>(a: seq<T>, b: seq<T>, c: seq<T>, d: seq<T>, level: T -> RiskLevel, l: RiskLevel)
    ensures OfLevel(a + b + c + d, level, l)
            == OfLevel(a, level, l) + OfLevel(b, level, l) + OfLevel(c, level, l) + OfLevel(d, level, l)
  {
    OfLevelAppend(a + b + c, d, level, l);
    OfLevelAppend(a + b, c, level, l);
    OfLevelAppend(a, b, level, l);
  }

  lemma NoneAbove<T>(u: seq<T>, level: T -> RiskLevel, l: RiskLevel)
    requires forall j :: 0 <= j < |u| ==> Severity(level(u[j])) < Severity(l)
    ensures OfLevel(u, level, l) == []
  {
    FilterDropsAll(u, x => level(x) == l);
  }

  /** Putting in front an element at least as severe as all the others keeps
      a worst-first sequence worst-first. */
  lemma WorstFirstCons<T>(x: T, u: seq<T>, level: T -> RiskLevel)
    requires WorstFirst(u, level) == u
    requires forall j :: 0 <= j < |u| ==> Severity(level(u[j])) <= Severity(level(x))
    ensures WorstFirst([x] + u, level) == [x] + u
  {
    var t := [x] + u;
    assert t[0] == x && t[1..] == u;
    var h, m, l, z := OfLevel(u, level, High), OfLevel(u, level, Medium), OfLevel(u, level, Low), OfLevel(u, level, Safe);
    var th, tm, tl, tz := OfLevel(t, level, High), OfLevel(t, level, Medium), OfLevel(t, level, Low), OfLevel(t, level, Safe);
    assert u == h + m + l + z;
    assert WorstFirst(t, level) == th + tm + tl + tz;
    OfLevelCons(t, level, High);
    OfLevelCons(t, level, Medium);
    OfLevelCons(t, level, Low);
    OfLevelCons(t, level, Safe);
    var sx := Severity(level(x));
    if sx < 3 { NoneAbove(u, level, High); }
    if sx < 2 { NoneAbove(u, level, Medium); }
    if sx < 1 { NoneAbove(u, level, Low); }
    if level(x) == High {
      assert th == [x] + h && tm == m && tl == l && tz == z;
      ConsAssoc(x, h, m);
      ConsAssoc(x, h + m, l);
      ConsAssoc(x, h + m + l, z);
    } else if level(x) == Medium {
      assert th == [] == h && tm == [x] + m && tl == l && tz == z;
      assert th + tm == tm && h + m == m;
      ConsAssoc(x, m, l);
      ConsAssoc(x, m + l, z);
    } else if level(x) == Low {
      assert th == [] == h && tm == [] == m && tl == [x] + l && tz == z;
      assert th + tm + tl == tl && h + m + l == l;
      ConsAssoc(x, l, z);
    } else {
      assert th == [] == h && tm == [] == m && tl == [] == l && tz == [x] + z;
      assert th + tm + tl + tz == tz && h + m + l + z == z;
    }
  }

  /** Kept as a lemma: stated inline amid the bucket facts above, this one
      step costs the solver far more than the rest of the proof. */
  lemma ConsAssoc<T>(x: T, a: seq<T>, b: seq<T>)
    ensures ([x] + a) + b == [x] + (a + b)
  {
  }

  /** A sequence already ordered worst-first is its own worst-first result. */
  lemma {:induction false} SortedIsWorstFirst<T>(t: seq<T>, level: T -> RiskLevel)
    requires IsWorstFirst(t, level)
    ensures WorstFirst(t, level) == t
  {
    if t != [] {
      var x, u := t[0], t[1..];
      assert t == [x] + u;
      assert forall j :: 0 <= j < |u| ==> u[j] == t[j + 1];
      assert IsWorstFirst(u, level);
      SortedIsWorstFirst(u, level);
      WorstFirstCons(x, u, level);
    }
  }

  /** Uniqueness: any ordering of severities that keeps each tier's input
      order is the worst-first result, so this function is exactly what a
      stable sort on the severity key returns. */
  lemma WorstFirstUnique<T>(s: seq<T>, t: seq<T>, level: T -> RiskLevel)
    requires IsWorstFirst(t, level)
    requires forall l :: OfLevel(t, level, l) == OfLevel(s, level, l)
    ensures t == WorstFirst(s, level)
  {
    SortedIsWorstFirst(t, level);
    assert OfLevel(t, level, High) == OfLevel(s, level, High);
    assert OfLevel(t, level, Medium) == OfLevel(s, level, Medium);
    assert OfLevel(t, level, Low) == OfLevel(s, level, Low);
    assert OfLevel(t, level, Safe) == OfLevel(s, level, Safe);
  }
}
