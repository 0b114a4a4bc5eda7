/** `merge` of thread.c: two neighbouring runs of the mapped window are copied out and
    merged back over themselves. */
module MergeInPlace {
  import opened Runs

  /** memcpy of `n` records starting at `from` into a new buffer. */
  method CopyOut(idx: array<Rec>, from: nat, n: nat) returns (run: array<Rec>)
    requires from + n <= idx.Length
    ensures fresh(run) && run[..] == idx[from..from + n]
  {
    run := new Rec[n](k requires 0 <= k < n reads idx => idx[from + k]);
  }

  /** The window w, which was `was`, after i records of a and j of b have been merged back
      from position lo on: what is written and what is left make up the merge of a and b. */
  ghost predicate Merging(w: seq<Rec>, was: seq<Rec>, lo: nat, a: seq<Rec>, b: seq<Rec>, i: nat, j: nat) {
    && lo + |a| + |b| <= |was| == |w| && i <= |a| && j <= |b|
    && w[..lo] == was[..lo] && w[lo + |a| + |b|..] == was[lo + |a| + |b|..]
    && w[lo..lo + i + j] + MergeSeq(a[i..], b[j..]) == MergeSeq(a, b)
  }

  lemma MergingStart(was: seq<Rec>, lo: nat, a: seq<Rec>, b: seq<Rec>)
    requires lo + |a| + |b| <= |was|
    ensures Merging(was, was, lo, a, b, 0, 0)
  {
    assert a[0..] == a && b[0..] == b && was[lo..lo] == [];
  }

  lemma TakeLeft(w: seq<Rec>, was: seq<Rec>, lo: nat, a: seq<Rec>, b: seq<Rec>, i: nat, j: nat)
    requires Merging(w, was, lo, a, b, i, j) && i < |a|
    requires j < |b| ==> a[i].mark < b[j].mark
    ensures Merging(w[lo + i + j := a[i]], was, lo, a, b, i + 1, j)
  {
    var u := w[lo + i + j := a[i]];
    assert MergeSeq(a[i..], b[j..]) == [a[i]] + MergeSeq(a[i + 1..], b[j..]);
    assert u[lo..lo + i + 1 + j] == w[lo..lo + i + j] + [a[i]];
  }

  lemma TakeRight(w: seq<Rec>, was: seq<Rec>, lo: nat, a: seq<Rec>, b: seq<Rec>, i: nat, j: nat)
    requires Merging(w, was, lo, a, b, i, j) && j < |b|
    requires i < |a| ==> !(a[i].mark < b[j].mark)
    ensures Merging(w[lo + i + j := b[j]], was, lo, a, b, i, j + 1)
  {
    var u := w[lo + i + j := b[j]];
    assert MergeSeq(a[i..], b[j..]) == [b[j]] + MergeSeq(a[i..], b[j + 1..]);
    assert u[lo..lo + i + j + 1] == w[lo..lo + i + j] + [b[j]];
  }

  lemma MergingEnd(w: seq<Rec>, was: seq<Rec>, lo: nat, a: seq<Rec>, b: seq<Rec>)
    requires Merging(w, was, lo, a, b, |a|, |b|)
    ensures w == was[..lo] + MergeSeq(a, b) + was[lo + |a| + |b|..]
  {
    assert a[|a|..] == [] && b[|b|..] == [];
    assert w == w[..lo] + w[lo..lo + |a| + |b|] + w[lo + |a| + |b|..];
  }

  /** Runs `no` and `no + 1` of length memsize/blocks are replaced by their merge; every
      record outside them keeps its place. */
  method Merge(idx: array<Rec>, memsize: nat, blocks: nat, no: nat)
    requires blocks > 0
    requires memsize / blocks * no + 2 * (memsize / blocks) <= idx.Length
    modifies idx
    ensures var n, lo := memsize / blocks, memsize / blocks * no;
      idx[..] == old(idx[..lo]) + MergeSeq(old(idx[lo..lo + n]), old(idx[lo + n..lo + 2 * n]))
                 + old(idx[lo + 2 * n..])
  {
    var n := memsize / blocks;
    var lo := n * no;
    var idx1 := CopyOut(idx, lo, n);
    var idx2 := CopyOut(idx, lo + n, n);
    MergeBack(idx, idx1, idx2, n, lo);
  }

  /** The three loops of `merge`, from the two copies back into the window. */
  method MergeBack(idx: array<Rec>, idx1: array<Rec>, idx2: array<Rec>, n: nat, lo: nat)
    requires lo + 2 * n <= idx.Length && idx1.Length == n && idx2.Length == n
    requires idx != idx1 && idx != idx2
    modifies idx
    ensures idx[..] == old(idx[..lo]) + MergeSeq(idx1[..], idx2[..]) + old(idx[lo + 2 * n..])
  {
    hide Merging;
    ghost var a, b, was := idx1[..], idx2[..], idx[..];
    var i, j, k := 0, 0, lo;
    MergingStart(was, lo, a, b);
    while i < n && j < n
      invariant i <= n && j <= n && k == lo + i + j && a == idx1[..] && b == idx2[..]
      invariant Merging(idx[..], was, lo, a, b, i, j)
    {
      if idx1[i].mark < idx2[j].mark {
        TakeLeft(idx[..], was, lo, a, b, i, j);
        idx[k] := idx1[i];
        k, i := k + 1, i + 1;
      } else {
        TakeRight(idx[..], was, lo, a, b, i, j);
        idx[k] := idx2[j];
        k, j := k + 1, j + 1;
      }
    }
    while i < n
      invariant i <= n && j <= n && k == lo + i + j && (i == n || j == n) && a == idx1[..] && b == idx2[..]
      invariant Merging(idx[..], was, lo, a, b, i, j)
    {
      TakeLeft(idx[..], was, lo, a, b, i, j);
      idx[k] := idx1[i];
      k, i := k + 1, i + 1;
    }
    while j < n
      invariant i == n && j <= n && k == lo + i + j && a == idx1[..] && b == idx2[..]
      invariant Merging(idx[..], was, lo, a, b, i, j)
    {
      TakeRight(idx[..], was, lo, a, b, i, j);
      idx[k] := idx2[j];
      k, j := k + 1, j + 1;
    }
    MergingEnd(idx[..], was, lo, a, b);
  }
}
