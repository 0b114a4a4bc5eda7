/** Merging of sorted runs, as thread.c does it: two runs of equal length are merged with
    ties going to the right run, and neighbouring runs are paired until one is left. */
module Runs {
  import opened Base

  /** One index entry: the time mark it is sorted by, and the record it points at. */
  datatype Rec = Rec(mark: real, recno: nat)

  ghost predicate Sorted(s: seq<Rec>) {
    forall i, j | 0 <= i < j < |s| :: s[i].mark <= s[j].mark
  }

  /** The records with one given mark, in the order in which they appear. */
  ghost function WithMark(s: seq<Rec>, k: real): seq<Rec> {
    if s == [] then []
    else (if s[0].mark == k then [s[0]] else []) + WithMark(s[1..], k)
  }

  /** Two-way merge; a tie takes the record of the right run. */
  function MergeSeq(a: seq<Rec>, b: seq<Rec>): (r: seq<Rec>)
    ensures |r| == |a| + |b|
  {
    if a == [] then b
    else if b == [] then a
    else if a[0].mark < b[0].mark then [a[0]] + MergeSeq(a[1..], b)
    else [b[0]] + MergeSeq(a, b[1..])
  }

  /** One round: neighbouring runs of length n are merged into runs of length 2n. */
  function MergePairs(s: seq<Rec>, n: nat): (r: seq<Rec>)
    ensures |r| == |s|
  {
    if n == 0 || |s| < 2 * n then s
    else MergeSeq(s[..n], s[n..2 * n]) + MergePairs(s[2 * n..], n)
  }

  /** Sequential bottom-up merging of b runs: the reference the threads are compared with. */
  function MergeAll(s: seq<Rec>, b: nat): (r: seq<Rec>)
    ensures |r| == |s|
    decreases b
  {
    if b <= 1 then s else MergeAll(MergePairs(s, |s| / b), b / 2)
  }

  // ---------------------------------------------------------------- one merge

  lemma {:induction false} MergeSeqPermutes(a: seq<Rec>, b: seq<Rec>)
    ensures multiset(MergeSeq(a, b)) == multiset(a) + multiset(b)
  {
    if a != [] && b != [] {
      assert a == [a[0]] + a[1..] && b == [b[0]] + b[1..];
      if a[0].mark < b[0].mark {
        MergeSeqPermutes(a[1..], b);
      } else {
        MergeSeqPermutes(a, b[1..]);
      }
    }
  }

  /** A lower bound of both runs is a lower bound of their merge. */
  lemma {:induction false} MergeSeqFloor(a: seq<Rec>, b: seq<Rec>, low: real)
    requires forall i | 0 <= i < |a| :: low <= a[i].mark
    requires forall i | 0 <= i < |b| :: low <= b[i].mark
    ensures forall i | 0 <= i < |a| + |b| :: low <= MergeSeq(a, b)[i].mark
  {
    if a != [] && b != [] {
      if a[0].mark < b[0].mark {
        MergeSeqFloor(a[1..], b, low);
      } else {
        MergeSeqFloor(a, b[1..], low);
      }
    }
  }

  lemma {:induction false} MergeSeqSorted(a: seq<Rec>, b: seq<Rec>)
    requires Sorted(a) && Sorted(b)
    ensures Sorted(MergeSeq(a, b))
  {
    if a != [] && b != [] {
      if a[0].mark < b[0].mark {
        MergeSeqSorted(a[1..], b);
        MergeSeqFloor(a[1..], b, a[0].mark);
      } else {
        MergeSeqSorted(a, b[1..]);
        MergeSeqFloor(a, b[1..], b[0].mark);
      }
    }
  }

  lemma {:induction false} WithMarkConcat(s: seq<Rec>, t: seq<Rec>, k: real)
    ensures WithMark(s + t, k) == WithMark(s, k) + WithMark(t, k)
  {
    if s == [] {
      assert s + t == t;
    } else {
      WithMarkConcat(s[1..], t, k);
      assert (s + t)[1..] == s[1..] + t;
    }
  }

  lemma {:induction false} WithMarkNone(s: seq<Rec>, k: real)
    requires forall i | 0 <= i < |s| :: s[i].mark != k
    ensures WithMark(s, k) == []
  {
    if s != [] {
      WithMarkNone(s[1..], k);
    }
  }

  /** The merge is not stable: among equal marks the whole right run comes first. */
  lemma {:induction false} MergeSeqTies(a: seq<Rec>, b: seq<Rec>, k: real)
    requires Sorted(a) && Sorted(b)
    ensures WithMark(MergeSeq(a, b), k) == WithMark(b, k) + WithMark(a, k)
  {
    if a == [] || b == [] {
      assert WithMark([], k) == [];
    } else if a[0].mark < b[0].mark {
      MergeSeqTies(a[1..], b, k);
      var r := MergeSeq(a, b);
      assert r[1..] == MergeSeq(a[1..], b);
      if a[0].mark == k {
        WithMarkNone(b, k);
      }
    } else {
      MergeSeqTies(a, b[1..], k);
      var r := MergeSeq(a, b);
      assert r[1..] == MergeSeq(a, b[1..]);
      assert WithMark(r, k) == (if b[0].mark == k then [b[0]] else []) + WithMark(r[1..], k);
    }
  }

  /** s and t hold the same records for every mark, in the same order. */
  ghost predicate SameTies(s: seq<Rec>, t: seq<Rec>) {
    forall k: real :: WithMark(s, k) == WithMark(t, k)
  }

  /** A sorted sequence is determined by what it holds for each mark. */
  lemma {:induction false} SortedUnique(s: seq<Rec>, t: seq<Rec>)
    requires Sorted(s) && Sorted(t) && SameTies(s, t)
    ensures s == t
  {
    if s != [] {
      SmallestFirst(s, t);
      SmallestFirst(t, s);
      var low := s[0].mark;
      assert WithMark(s, low) == WithMark(t, low);
      assert WithMark(s, low)[0] == s[0] && WithMark(t, low)[0] == t[0];
      forall k: real
        ensures WithMark(s[1..], k) == WithMark(t[1..], k)
      {
        assert WithMark(s, k) == WithMark(t, k);
        var head := if k == low then [s[0]] else [];
        assert WithMark(s[1..], k) == WithMark(s, k)[|head|..];
        assert WithMark(t[1..], k) == WithMark(t, k)[|head|..];
      }
      SortedUnique(s[1..], t[1..]);
      assert s == [s[0]] + s[1..] && t == [t[0]] + t[1..];
    } else if t != [] {
      SmallestFirst(t, s);
    }
  }

  lemma SmallestFirst(s: seq<Rec>, t: seq<Rec>)
    requires s != [] && Sorted(t) && SameTies(s, t)
    ensures t != [] && t[0].mark <= s[0].mark
  {
    var k := s[0].mark;
    assert WithMark(s, k) == WithMark(t, k);
    if forall i | 0 <= i < |t| :: t[i].mark != k {
      WithMarkNone(t, k);
    }
  }

  // ------------------------------------------------------------ one whole round

  /** Consecutive runs of length n, each of them sorted. */
  ghost predicate RunsSorted(s: seq<Rec>, n: nat)
    requires n > 0
  {
    s == [] || (|s| >= n && Sorted(s[..n]) && RunsSorted(s[n..], n))
  }

  /** The records with mark k, the runs of length n taken from the last to the first. */
  ghost function LastRunFirst(s: seq<Rec>, n: nat, k: real): seq<Rec>
    requires n > 0
  {
    if |s| < n then [] else LastRunFirst(s[n..], n, k) + WithMark(s[..n], k)
  }

  lemma {:induction false} MergePairsPermutes(s: seq<Rec>, n: nat)
    ensures multiset(MergePairs(s, n)) == multiset(s)
  {
    if !(n == 0 || |s| < 2 * n) {
      MergePairsPermutes(s[2 * n..], n);
      MergeSeqPermutes(s[..n], s[n..2 * n]);
      assert s == s[..n] + s[n..2 * n] + s[2 * n..];
    }
  }

  lemma FirstPair(s: seq<Rec>, n: nat, pairs: nat)
    requires n > 0 && pairs > 0 && |s| == pairs * (2 * n) && RunsSorted(s, n)
    ensures |s| >= 2 * n && |s[2 * n..]| == (pairs - 1) * (2 * n)
    ensures s[n..][n..] == s[2 * n..] && s[n..][..n] == s[n..2 * n]
    ensures Sorted(s[..n]) && Sorted(s[n..2 * n]) && RunsSorted(s[2 * n..], n)
  {
    MulMonotone(1, pairs, 2 * n);
    assert |s[2 * n..]| == (pairs - 1) * (2 * n);
    assert s[n..][n..] == s[2 * n..] && s[n..][..n] == s[n..2 * n];
  }

  lemma {:induction false} MergePairsSorted(s: seq<Rec>, n: nat, pairs: nat)
    requires n > 0 && |s| == pairs * (2 * n) && RunsSorted(s, n)
    ensures RunsSorted(MergePairs(s, n), 2 * n)
  {
    if pairs > 0 {
      FirstPair(s, n, pairs);
      MergePairsSorted(s[2 * n..], n, pairs - 1);
      MergeSeqSorted(s[..n], s[n..2 * n]);
      var head := MergeSeq(s[..n], s[n..2 * n]);
      assert MergePairs(s, n)[..2 * n] == head;
      assert MergePairs(s, n)[2 * n..] == MergePairs(s[2 * n..], n);
    }
  }

  lemma {:induction false} MergePairsTies(s: seq<Rec>, n: nat, pairs: nat, k: real)
    requires n > 0 && |s| == pairs * (2 * n) && RunsSorted(s, n)
    ensures LastRunFirst(MergePairs(s, n), 2 * n, k) == LastRunFirst(s, n, k)
  {
    if pairs > 0 {
      FirstPair(s, n, pairs);
      MergePairsTies(s[2 * n..], n, pairs - 1, k);
      MergeSeqTies(s[..n], s[n..2 * n], k);
      var head := MergeSeq(s[..n], s[n..2 * n]);
      assert MergePairs(s, n)[..2 * n] == head;
      assert MergePairs(s, n)[2 * n..] == MergePairs(s[2 * n..], n);
      var rest := LastRunFirst(s[2 * n..], n, k);
      assert LastRunFirst(s, n, k) == rest + WithMark(s[n..2 * n], k) + WithMark(s[..n], k);
    }
  }

  // -------------------------------------------------------------- all the rounds

  /** One round of 2^e runs of length n leaves 2^(e-1) runs of length 2n. */
  lemma MergeAllStep(s: seq<Rec>, n: nat, e: nat)
    requires e > 0 && |s| == n * Pow2(e)
    ensures |s| == Pow2(e - 1) * (2 * n) == (2 * n) * Pow2(e - 1)
    ensures MergeAll(s, Pow2(e)) == MergeAll(MergePairs(s, n), Pow2(e - 1))
  {
    QuotientUnique(|s|, Pow2(e), n);
  }

  /** Bottom-up merging of 2^e sorted runs sorts the whole and permutes it. */
  lemma {:induction false} MergeAllSorts(s: seq<Rec>, n: nat, e: nat)
    requires n > 0 && |s| == n * Pow2(e) && RunsSorted(s, n)
    ensures Sorted(MergeAll(s, Pow2(e)))
    ensures multiset(MergeAll(s, Pow2(e))) == multiset(s)
    decreases e
  {
    if e == 0 {
      assert s[..n] == s;
    } else {
      MergeAllStep(s, n, e);
      MergePairsSorted(s, n, Pow2(e - 1));
      MergePairsPermutes(s, n);
      MergeAllSorts(MergePairs(s, n), 2 * n, e - 1);
    }
  }

  /** Records with equal marks come out run by run, the last run first, and in run order
      within a run: the merge as a whole is as far from stable as it can be. */
  lemma {:induction false} MergeAllTies(s: seq<Rec>, n: nat, e: nat, k: real)
    requires n > 0 && |s| == n * Pow2(e) && RunsSorted(s, n)
    ensures WithMark(MergeAll(s, Pow2(e)), k) == LastRunFirst(s, n, k)
    decreases e
  {
    if e == 0 {
      assert s[..n] == s && s[n..] == [];
      assert LastRunFirst(s[n..], n, k) == [];
    } else {
      MergeAllStep(s, n, e);
      MergePairsSorted(s, n, Pow2(e - 1));
      MergePairsTies(s, n, Pow2(e - 1), k);
      MergeAllTies(MergePairs(s, n), 2 * n, e - 1, k);
    }
  }
}
