/** The window as a row of blocks of n records: reading block i, writing it, and the fact
    that writes to different blocks (or pairs of blocks) do not meet. */
module Blocks {
  import opened Base
  import opened Runs

  function Blk(w: seq<Rec>, n: nat, i: nat): seq<Rec> {
    if i * n + n <= |w| then w[i * n..i * n + n] else []
  }

  function SetBlk(w: seq<Rec>, n: nat, i: nat, r: seq<Rec>): seq<Rec> {
    if i * n + n <= |w| then w[..i * n] + r + w[i * n + n..] else w
  }

  /** Blocks i and i + 1 together. */
  function Pair(w: seq<Rec>, n: nat, i: nat): seq<Rec> {
    if i * n + 2 * n <= |w| then w[i * n..i * n + 2 * n] else []
  }

  /** Record k of the pair starting at block i is overwritten. */
  function Poke(w: seq<Rec>, n: nat, i: nat, k: nat, v: Rec): seq<Rec> {
    if i * n + k < |w| then w[i * n + k := v] else w
  }

  lemma Fits(n: nat, b: nat, i: nat, j: nat)
    requires i + j <= b
    ensures i * n + j * n <= b * n && (i + j) * n == i * n + j * n
  {
    MulMonotone(i + j, b, n);
  }

  lemma PairsApart(n: nat, i: nat, j: nat)
    requires i % 2 == 0 && j % 2 == 0 && i != j
    ensures i * n + 2 * n <= j * n || j * n + 2 * n <= i * n
  {
    if i < j {
      Fits(n, j, i, 2);
    } else {
      Fits(n, i, j, 2);
    }
  }

  lemma PairInside(n: nat, b: nat, i: nat)
    requires n > 0
    ensures i * n + 2 * n <= b * n <==> i + 2 <= b
  {
    if i + 2 <= b {
      Fits(n, b, i, 2);
    } else {
      Fits(n, i + 2, b, 1);
      assert (i + 2) * n == i * n + 2 * n;
    }
  }

  lemma SetBlkSplit(w: seq<Rec>, n: nat, b: nat, i: nat, j: nat, r: seq<Rec>)
    requires |w| == b * n && i < b && j < b && |r| == n
    ensures |SetBlk(w, n, i, r)| == |w|
    ensures Blk(SetBlk(w, n, i, r), n, j) == if i == j then r else Blk(w, n, j)
  {
    Fits(n, b, i, 1);
    Fits(n, b, j, 1);
    var u := SetBlk(w, n, i, r);
    assert |u| == |w|;
    if i == j {
      assert u[i * n..i * n + n] == r;
    } else if i < j {
      Fits(n, j, i, 1);
      assert u[j * n..j * n + n] == w[j * n..j * n + n];
    } else {
      Fits(n, i, j, 1);
      assert u[j * n..j * n + n] == w[j * n..j * n + n];
    }
  }

  /** Writing inside one pair leaves every pair at distance two or more alone. */
  lemma PokeSplit(w: seq<Rec>, n: nat, b: nat, i: nat, j: nat, k: nat, v: Rec)
    requires |w| == b * n && i + 2 <= b && j + 2 <= b && k < 2 * n
    requires i == j || i + 2 <= j || j + 2 <= i
    ensures i * n + k < |w| && |Pair(w, n, j)| == 2 * n
    ensures |Poke(w, n, i, k, v)| == |w|
    ensures Pair(Poke(w, n, i, k, v), n, j) == if i == j then Pair(w, n, j)[k := v] else Pair(w, n, j)
  {
    Fits(n, b, i, 2);
    Fits(n, b, j, 2);
    if i + 2 <= j {
      Fits(n, j, i, 2);
    } else if j + 2 <= i {
      Fits(n, i, j, 2);
    }
  }

  lemma PairIsTwoBlocks(w: seq<Rec>, n: nat, b: nat, i: nat)
    requires |w| == b * n && i + 2 <= b
    ensures Pair(w, n, i) == Blk(w, n, i) + Blk(w, n, i + 1)
    ensures |Blk(w, n, i)| == n && |Blk(w, n, i + 1)| == n
  {
    Fits(n, b, i, 2);
    Fits(n, b, i + 1, 1);
    assert (i + 1) * n == i * n + n;
  }

  lemma BlkLength(w: seq<Rec>, n: nat, b: nat, i: nat)
    requires |w| == b * n && i < b
    ensures |Blk(w, n, i)| == n
  {
    Fits(n, b, i, 1);
  }

  lemma PairAt(base: seq<Rec>, w: seq<Rec>, n: nat, b: nat, i: nat)
    requires n > 0 && |base| == |w| == b * n && i + 2 <= b
    ensures i * n + 2 * n == (i + 2) * n <= |w|
    ensures base[i * n..][..n] == Blk(base, n, i) && base[i * n..][n..2 * n] == Blk(base, n, i + 1)
    ensures base[i * n..][2 * n..] == base[(i + 2) * n..]
    ensures w[i * n..] == Pair(w, n, i) + w[(i + 2) * n..]
  {
    Fits(n, b, i, 2);
    assert (i + 1) * n == i * n + n;
  }

  /** If every pair has been replaced by its merge, the window is one MergePairs further. */
  lemma {:induction false} AllPairsMerged(base: seq<Rec>, w: seq<Rec>, n: nat, b: nat, i: nat)
    requires n > 0 && |base| == |w| == b * n && b % 2 == 0 && i % 2 == 0 && i <= b
    requires forall j | 0 <= j < b && j % 2 == 0 :: Pair(w, n, j) == MergeSeq(Blk(base, n, j), Blk(base, n, j + 1))
    ensures i * n <= |w| && w[i * n..] == MergePairs(base[i * n..], n)
    decreases b - i
  {
    hide MergeSeq, Blk, Pair;
    Fits(n, b, i, 0);
    if i < b {
      PairAt(base, w, n, b, i);
      AllPairsMerged(base, w, n, b, i + 2);
    } else {
      assert base[i * n..] == [] && w[i * n..] == [];
    }
  }
}
