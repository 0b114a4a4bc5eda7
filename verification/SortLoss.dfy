/** What the extra visit of the first merge round costs: if the word past the claim map is free
    and names two runs of the window, some run of the program ends with records lost. */
module SortLoss {
  import opened Base
  import opened Runs
  import opened Blocks
  import opened SortModel
  import opened SortInvariant
  import opened SortSteps
  import opened SortTheorems
  import opened SortGuard
  import opened SortTurns

  // ------------------------------------------------------ runs of a single mark

  ghost predicate Level(b: seq<Rec>, m: int) {
    forall k | 0 <= k < |b| :: b[k].mark == m as real
  }

  lemma {:induction false} MergeLevels(a: seq<Rec>, b: seq<Rec>, x: int, y: int)
    requires Level(a, x) && Level(b, y)
    ensures MergeSeq(a, b) == if x < y then a + b else b + a
  {
    if a == [] || b == [] {
      assert a + b == b + a;
    } else if x < y {
      MergeLevels(a[1..], b, x, y);
      assert a + b == [a[0]] + (a[1..] + b);
    } else {
      MergeLevels(a, b[1..], x, y);
      assert b + a == [b[0]] + (b[1..] + a);
    }
  }

  /** Neighbouring runs whose marks do not go down, or are the same run, merge to themselves. */
  lemma LevelsCalm(w: seq<Rec>, n: nat, i: nat, x: int, y: int)
    requires i * n + 2 * n <= |w| && Level(Blk(w, n, i), x) && Level(Blk(w, n, i + 1), y)
    requires x < y || (x == y && Blk(w, n, i) == Blk(w, n, i + 1))
    ensures Calm(w, n, i)
  {
    MergeLevels(Blk(w, n, i), Blk(w, n, i + 1), x, y);
    assert (i + 1) * n == i * n + n;
    Slices(w, i * n, n);
    hide MergeSeq;
  }

  lemma Slices(w: seq<Rec>, lo: nat, n: nat)
    requires lo + 2 * n <= |w|
    ensures w[..lo] + (w[lo..lo + n] + w[lo + n..lo + 2 * n]) + w[lo + 2 * n..] == w
    ensures w[lo..lo + n] + w[lo + n..lo + 2 * n] == w[lo..lo + 2 * n]
  {
  }

  // ------------------------------------------------------------ the chosen chunk

  /** The first run of the pair that contains run b. */
  function First(b: nat): nat { b - b % 2 }

  /** The mark of block i: the blocks are in order but for the two of the pair at e. */
  function MarkOf(e: nat, i: nat): int {
    if i == e then e + 1 else if i == e + 1 then e else i
  }

  /** The chunk in which block i has this mark throughout and records are numbered in order. */
  function Chunk(n: nat, blocks: nat, e: nat): seq<Rec> {
    seq(blocks * n, k requires 0 <= k < blocks * n => Rec(MarkOf(e, Quot(k, n)) as real, k))
  }

  lemma ChunkBlock(n: nat, blocks: nat, e: nat, i: nat)
    requires n > 0 && i < blocks
    ensures |Blk(Chunk(n, blocks, e), n, i)| == n && Level(Blk(Chunk(n, blocks, e), n, i), MarkOf(e, i))
    ensures forall r | r in Blk(Chunk(n, blocks, e), n, i) :: i * n <= r.recno < i * n + n
  {
    var o := Chunk(n, blocks, e);
    var b := Blk(o, n, i);
    BlkLength(o, n, blocks, i);
    forall k | 0 <= k < n
      ensures b[k] == Rec(MarkOf(e, i) as real, i * n + k)
    {
      assert b[k] == o[i * n + k];
      QuotientOf(i, n, k);
    }
  }

  lemma QuotientOf(i: nat, n: nat, k: nat)
    requires k < n
    ensures (i * n + k) / n == i
  {
    var q, r := (i * n + k) / n, (i * n + k) % n;
    assert i * n + k == n * q + r;
    if q < i {
      MulMonotone(q + 1, i, n);
    } else if q > i {
      MulMonotone(i + 1, q, n);
    }
  }

  lemma PermutedLevel(a: seq<Rec>, b: seq<Rec>, m: int)
    requires multiset(a) == multiset(b) && Level(a, m)
    ensures Level(b, m)
  {
    forall k | 0 <= k < |b|
      ensures b[k].mark == m as real
    {
      assert b[k] in multiset(a);
    }
  }

  /** The window at the beginning of the round: the blocks of the chunk, sorted. */
  ghost predicate SortedChunk(c: Config, e: nat, w: seq<Rec>) {
    SortedBlocksOf(c, Chunk(c.BlockLen(), c.Blocks(), e), w)
  }

  lemma StartBlock(c: Config, e: nat, w: seq<Rec>, i: nat)
    requires Valid(c) && SortedChunk(c, e, w) && i < c.Blocks()
    ensures |Blk(w, c.BlockLen(), i)| == c.BlockLen() && Level(Blk(w, c.BlockLen(), i), MarkOf(e, i))
  {
    BlockLenExact(c);
    var n, o := c.BlockLen(), Chunk(c.BlockLen(), c.Blocks(), e);
    ChunkBlock(n, c.Blocks(), e, i);
    BlockFacts(c, o, w, i);
    PermutedLevel(Blk(o, n, i), Blk(w, n, i), MarkOf(e, i));
  }

  /** The window in which run e has been overwritten by the run to its right. */
  function Doubled(w: seq<Rec>, n: nat, e: nat): seq<Rec> {
    SetBlk(w, n, e, Blk(w, n, e + 1))
  }

  lemma DoubledBlock(c: Config, e: nat, w: seq<Rec>, i: nat)
    requires Valid(c) && SortedChunk(c, e, w) && e + 1 < c.Blocks() && i < c.Blocks()
    ensures var n, u := c.BlockLen(), Doubled(w, c.BlockLen(), e);
      && |u| == |w| == c.memsize
      && Blk(u, n, i) == (if i == e then Blk(w, n, e + 1) else Blk(w, n, i))
      && |Blk(u, n, i)| == n && Level(Blk(u, n, i), if i == e then e else MarkOf(e, i))
  {
    BlockLenExact(c);
    var n := c.BlockLen();
    StartBlock(c, e, w, e + 1);
    StartBlock(c, e, w, i);
    SetBlkSplit(w, n, c.Blocks(), e, i, Blk(w, n, e + 1));
    hide Blk, SetBlk, SortedBlocksOf, Valid;
  }

  lemma StartCalm(c: Config, e: nat, w: seq<Rec>, i: nat)
    requires Valid(c) && SortedChunk(c, e, w) && i + 2 <= c.Blocks() && (i + 2 <= e || e + 2 <= i)
    ensures Calm(w, c.BlockLen(), i)
  {
    BlockLenExact(c);
    StartBlock(c, e, w, i);
    StartBlock(c, e, w, i + 1);
    Fits(c.BlockLen(), c.Blocks(), i, 2);
    hide Blk, Calm, Valid;
    LevelsCalm(w, c.BlockLen(), i, MarkOf(e, i), MarkOf(e, i + 1));
  }

  lemma DoubledCalm(c: Config, e: nat, w: seq<Rec>, i: nat)
    requires Valid(c) && SortedChunk(c, e, w) && e + 1 < c.Blocks() && i + 2 <= c.Blocks() && i + 1 != e
    ensures Calm(Doubled(w, c.BlockLen(), e), c.BlockLen(), i)
  {
    BlockLenExact(c);
    DoubledBlock(c, e, w, i);
    DoubledBlock(c, e, w, i + 1);
    Fits(c.BlockLen(), c.Blocks(), i, 2);
    hide Blk, Calm, Valid, SortedBlocksOf, Doubled;
    var x, y := if i == e then e else MarkOf(e, i), if i + 1 == e then e else MarkOf(e, i + 1);
    LevelsCalm(Doubled(w, c.BlockLen(), e), c.BlockLen(), i, x, y);
  }

  // ------------------------------------------------------------- the schedule

  /** Participant 2 in the middle of its merge of the pair at e: the right run is stored. */
  function HalfMerged(c: Config, w: seq<Rec>, e: nat): Pc {
    var right := Blk(w, c.BlockLen(), e + 1);
    Store(e, c.Blocks(), ClaimLoop(e), Blk(w, c.BlockLen(), e), right, 0, |right|)
  }

  /** Participant 1 in the extra merge, before its first store. */
  function ExtraCopied(c: Config, w1: seq<Rec>, b: nat): Pc {
    Store(b, c.Blocks(), ClaimLoop(c.Blocks()), Blk(w1, c.BlockLen(), b), Blk(w1, c.BlockLen(), b + 1), 0, 0)
  }

  /** Everybody at the beginning of the claim loop. */
  function AtStart(c: Config): (pcs: seq<Pc>)
    ensures |pcs| == c.Threads()
  {
    seq(c.Threads(), _ => ClaimTest(0))
  }

  lemma OverlaidIsDoubled(w: seq<Rec>, n: nat, e: nat)
    requires e * n + 2 * n <= |w| && |Blk(w, n, e + 1)| == n
    ensures Overlaid(w, e * n, Blk(w, n, e + 1), 0) == w
    ensures Overlaid(w, e * n, Blk(w, n, e + 1), n) == Doubled(w, n, e)
  {
    var r, lo := Blk(w, n, e + 1), e * n;
    assert r[..n] == r && r[..0] == [];
    hide Blk;
  }

  /** Participant 1 merges the pairs before e, participant 2 claims the pair at e. */
  lemma PairClaimed(c: Config, f0: seq<seq<Rec>>, s: State, w: seq<Rec>, e: nat) returns (t: State)
    requires Valid(c) && Reached(c, f0, s) && Scene(c, s, w, 0, AtStart(c)) && SortedChunk(c, e, w)
    requires e % 2 == 0 && e + 2 <= c.Blocks()
    ensures Reached(c, f0, t)
    ensures Scene(c, t, w, e + 2, AtStart(c)[1 := ClaimTest(e)][2 := Copy(e, c.Blocks(), ClaimLoop(e))])
  {
    var p0 := AtStart(c);
    forall k | 0 <= k < e && k % 2 == 0
      ensures Calm(w, c.BlockLen(), k)
    {
      StartCalm(c, e, w, k);
    }
    hide Reached, Scene, Calm, SortedChunk, Valid, AtStart;
    var s1 := MergeTurns(c, f0, s, w, p0, 1, 0, e);
    var p1 := p0[1 := ClaimTest(e)];
    var s2 := BusyTurns(c, f0, s1, w, e, p1, 2, 0, e);
    t := ClaimTurn(c, f0, s2, w, p1[2 := ClaimTest(e)], 2, e, e);
    assert p1[2 := ClaimTest(e)][2 := Copy(e, c.Blocks(), ClaimLoop(e))] == p1[2 := Copy(e, c.Blocks(), ClaimLoop(e))];
  }

  lemma LevelsRightFirst(a: seq<Rec>, b: seq<Rec>, x: int, y: int)
    requires Level(a, x) && Level(b, y) && y <= x && a != []
    ensures RightFirst(a, b)
  {
  }

  /** What the merge of the pair at e works on. */
  lemma PairFacts(c: Config, w: seq<Rec>, e: nat)
    requires Valid(c) && SortedChunk(c, e, w) && e + 2 <= c.Blocks()
    ensures var n := c.BlockLen();
      && n == c.RunLen(c.Blocks()) && n > 0 && e * n + 2 * n <= |w| == c.memsize
      && |Blk(w, n, e)| == |Blk(w, n, e + 1)| == n && RightFirst(Blk(w, n, e), Blk(w, n, e + 1))
      && |Doubled(w, n, e)| == |w|
      && Overlaid(w, e * n, Blk(w, n, e + 1), 0) == w
      && Overlaid(w, e * n, Blk(w, n, e + 1), n) == Doubled(w, n, e)
  {
    var n := c.BlockLen();
    StartBlock(c, e, w, e);
    StartBlock(c, e, w, e + 1);
    DoubledBlock(c, e, w, e);
    BlockLenExact(c);
    Fits(n, c.Blocks(), e, 2);
    OverlaidIsDoubled(w, n, e);
    hide Blk, Doubled, Overlaid, Valid, RightFirst;
    LevelsRightFirst(Blk(w, n, e), Blk(w, n, e + 1), e + 1, e);
  }

  /** Participant 2 copies the pair at e out and stores the right run. */
  lemma PairHalfMerged(c: Config, f0: seq<seq<Rec>>, s: State, w: seq<Rec>, e: nat) returns (t: State)
    requires Valid(c) && Reached(c, f0, s) && SortedChunk(c, e, w) && e + 2 <= c.Blocks()
    requires Scene(c, s, w, e + 2, AtStart(c)[1 := ClaimTest(e)][2 := Copy(e, c.Blocks(), ClaimLoop(e))])
    ensures Reached(c, f0, t)
    ensures Scene(c, t, Doubled(w, c.BlockLen(), e), e + 2, AtStart(c)[1 := ClaimTest(e)][2 := HalfMerged(c, w, e)])
  {
    hide Reached, Scene, SortedChunk, Valid, Blk, Overlaid, Doubled, RightFirst, AtStart, Pow2, Quot;
    EnoughOfAll(c);
    PairFacts(c, w, e);
    var n, p1 := c.BlockLen(), AtStart(c)[1 := ClaimTest(e)];
    var p3 := p1[2 := Copy(e, c.Blocks(), ClaimLoop(e))];
    var u := CopyTurn(c, f0, s, w, e + 2, p3, 2, e, e);
    var pc := Store(e, c.Blocks(), ClaimLoop(e), Blk(w, n, e), Blk(w, n, e + 1), 0, 0);
    assert p3[2 := pc] == p1[2 := pc];
    t := RightStores(c, f0, u, w, e + 2, p1, 2, pc, e * n, n);
  }

  lemma SetFirst(pcs: seq<Pc>, old1: Pc, new1: Pc, q: Pc)
    requires |pcs| > 2
    ensures pcs[1 := old1][2 := q][1 := new1] == pcs[1 := new1][2 := q]
  {
  }

  lemma EnoughOfAll(c: Config)
    requires Valid(c)
    ensures c.Threads() > 2 && c.Blocks() % 2 == 0
  {
    RunsFacts(c, 0);
  }

  /** Participant 1 merges the other pairs. */
  lemma OthersMerged(c: Config, f0: seq<seq<Rec>>, s: State, w: seq<Rec>, e: nat, q: Pc) returns (t: State)
    requires Valid(c) && Reached(c, f0, s) && SortedChunk(c, e, w) && e % 2 == 0 && e + 2 <= c.Blocks()
    requires Scene(c, s, Doubled(w, c.BlockLen(), e), e + 2, AtStart(c)[1 := ClaimTest(e)][2 := q])
    ensures Reached(c, f0, t)
    ensures Scene(c, t, Doubled(w, c.BlockLen(), e), c.Blocks(), AtStart(c)[1 := ClaimTest(c.Blocks())][2 := q])
  {
    var w1, r, p0 := Doubled(w, c.BlockLen(), e), c.Blocks(), AtStart(c);
    hide Reached, Scene, Calm, SortedChunk, Valid, Doubled, AtStart, Pow2, Quot;
    EnoughOfAll(c);
    forall k | e + 2 <= k < r && k % 2 == 0
      ensures Calm(w1, c.BlockLen(), k)
    {
      DoubledCalm(c, e, w, k);
    }
    var s1 := BusyTurn(c, f0, s, w1, e + 2, p0[1 := ClaimTest(e)][2 := q], 1, e);
    SetFirst(p0, ClaimTest(e), ClaimTest(e + 2), q);
    t := MergeTurns(c, f0, s1, w1, p0[1 := ClaimTest(e + 2)][2 := q], 1, e + 2, r);
    SetFirst(p0, ClaimTest(e + 2), ClaimTest(r), q);
  }

  /** Then it makes the visit and copies out what the word names. */
  lemma VisitorCopied(c: Config, f0: seq<seq<Rec>>, s: State, w1: seq<Rec>, b: nat, q: Pc) returns (t: State)
    requires Valid(c) && Reached(c, f0, s) && c.over.block == b && b + 2 <= c.Blocks()
    requires Scene(c, s, w1, c.Blocks(), AtStart(c)[1 := ClaimTest(c.Blocks())][2 := q])
    ensures Reached(c, f0, t)
    ensures Scene(c, t, w1, c.Blocks() + 2, AtStart(c)[1 := ExtraCopied(c, w1, b)][2 := q])
  {
    var r, p0 := c.Blocks(), AtStart(c);
    hide Reached, Scene, Valid, Blk, AtStart, Pow2, Quot;
    EnoughOfAll(c);
    var u := ClaimTurn(c, f0, s, w1, p0[1 := ClaimTest(r)][2 := q], 1, r, b);
    SetFirst(p0, ClaimTest(r), Copy(b, r, ClaimLoop(r)), q);
    t := CopyTurn(c, f0, u, w1, r + 2, p0[1 := Copy(b, r, ClaimLoop(r))][2 := q], 1, b, r);
    SetFirst(p0, Copy(b, r, ClaimLoop(r)), ExtraCopied(c, w1, b), q);
  }

  /** Writing x over the second half of a pair leaves what lies outside a merge from bl on. */
  lemma Outside(w1: seq<Rec>, x: seq<Rec>, lo: nat, n: nat, bl: nat)
    requires |x| == n && lo + 2 * n <= |w1| && (bl == lo || bl == lo + n) && bl + 2 * n <= |w1|
    ensures var w2 := w1[..lo + n] + x + w1[lo + 2 * n..];
      |w2| == |w1| && w2[..bl] == w1[..bl] && w2[bl + 2 * n..] == w1[bl + 2 * n..]
  {
  }

  lemma LeftRemains(w: seq<Rec>, lo: nat, n: nat, q: Pc)
    requires Underway(q) && |q.left| == |q.right| == n && q.x == 0 && q.y == n && lo + 2 * n <= |w|
    ensures Finished(w, lo, q) == w[..lo + n] + q.left + w[lo + 2 * n..]
  {
    assert q.right[n..] == [] && q.left[0..] == q.left;
  }

  lemma AllRemains(w: seq<Rec>, lo: nat, n: nat, p: Pc)
    requires Underway(p) && |p.left| == |p.right| == n && p.x == p.y == 0 && lo + 2 * n <= |w|
    ensures Finished(w, lo, p) == w[..lo] + MergeSeq(p.left, p.right) + w[lo + 2 * n..]
  {
    assert p.left[0..] == p.left && p.right[0..] == p.right;
  }

  /** What the two unfinished merges have in hand, lo and bl being where they store. */
  ghost predicate InHands(w1: seq<Rec>, n: nat, lo: nat, bl: nat, q: Pc, p: Pc) {
    && Underway(q) && |q.left| == |q.right| == n && q.x == 0 && q.y == n && lo + 2 * n <= |w1|
    && Underway(p) && |p.left| == |p.right| == n && p.x == p.y == 0 && bl + 2 * n <= |w1|
    && (bl == lo || bl == lo + n)
    && w1[..bl] + MergeSeq(p.left, p.right) + w1[bl + 2 * n..] == w1
  }

  lemma LeftHand(c: Config, w: seq<Rec>, e: nat, n: nat, lo: nat)
    requires Valid(c) && SortedChunk(c, e, w) && e + 2 <= c.Blocks() && n == c.BlockLen() && lo == e * n
    ensures var q := HalfMerged(c, w, e);
      && Underway(q) && |q.left| == |q.right| == n && q.x == 0 && q.y == n
      && |Doubled(w, n, e)| == c.memsize && lo + 2 * n <= c.memsize
  {
    PairFacts(c, w, e);
    hide SortedChunk, Doubled, Overlaid, RightFirst, Valid, Blk;
  }

  lemma ExtraHand(c: Config, w: seq<Rec>, e: nat, b: nat, n: nat, bl: nat, w1: seq<Rec>)
    requires Valid(c) && SortedChunk(c, e, w) && e + 2 <= c.Blocks() && b + 2 <= c.Blocks() && b + 1 != e
    requires n == c.BlockLen() && bl == b * n && w1 == Doubled(w, n, e)
    ensures var p := ExtraCopied(c, w1, b);
      && Underway(p) && |p.left| == |p.right| == n && p.x == p.y == 0 && bl + 2 * n <= |w1|
      && w1[..bl] + MergeSeq(p.left, p.right) + w1[bl + 2 * n..] == w1
  {
    DoubledBlock(c, e, w, b);
    DoubledBlock(c, e, w, b + 1);
    DoubledCalm(c, e, w, b);
    hide SortedChunk, Doubled, Valid, Blk, MergeSeq, Level;
  }

  lemma HandsFacts(c: Config, w: seq<Rec>, e: nat, b: nat, n: nat, lo: nat, bl: nat)
    requires Valid(c) && SortedChunk(c, e, w) && e + 2 <= c.Blocks() && (b == e || b == e + 1) && b + 2 <= c.Blocks()
    requires n == c.BlockLen() && lo == e * n && bl == b * n
    ensures var w1 := Doubled(w, n, e);
      |w1| == c.memsize && InHands(w1, n, lo, bl, HalfMerged(c, w, e), ExtraCopied(c, w1, b))
  {
    var w1 := Doubled(w, n, e);
    LeftHand(c, w, e, n, lo);
    ExtraHand(c, w, e, b, n, bl, w1);
    assert (e + 1) * n == e * n + n;
    assert bl == lo || bl == lo + n;
    hide SortedChunk, Doubled, Valid, Blk, MergeSeq, Underway, HalfMerged, ExtraCopied, Quot;
  }

  /** First participant 2 writes its left run, then participant 1 puts back what it has copied
      from the window w1: that is w1 again. */
  lemma PutBack(w1: seq<Rec>, n: nat, lo: nat, bl: nat, q: Pc, p: Pc)
    requires InHands(w1, n, lo, bl, q, p)
    ensures |Finished(w1, lo, q)| == |w1| && Finished(Finished(w1, lo, q), bl, p) == w1
  {
    LeftRemains(w1, lo, n, q);
    Outside(w1, q.left, lo, n, bl);
    var w2 := Finished(w1, lo, q);
    hide Finished, MergeSeq, Underway;
    AllRemains(w2, bl, n, p);
  }

  /** Both finish their merges. */
  lemma BothFinish(
    c: Config, f0: seq<seq<Rec>>, s: State, w1: seq<Rec>, e: nat, lo: nat, bl: nat, q: Pc, p: Pc)
    returns (t: State)
    requires Reached(c, f0, s) && c.Threads() > 2 && |w1| == c.memsize && InHands(w1, c.BlockLen(), lo, bl, q, p)
    requires q.back == ClaimLoop(e) && lo == q.no * c.RunLen(q.runs)
    requires p.back == ClaimLoop(c.Blocks()) && bl == p.no * c.RunLen(p.runs)
    requires Scene(c, s, w1, c.Blocks() + 2, AtStart(c)[1 := p][2 := q])
    ensures Reached(c, f0, t)
    ensures Scene(c, t, w1, c.Blocks() + 2, AtStart(c)[1 := ClaimTest(c.Blocks() + 2)][2 := ClaimTest(e + 2)])
  {
    var r, p0 := c.Blocks(), AtStart(c);
    PutBack(w1, c.BlockLen(), lo, bl, q, p);
    hide Reached, Scene, Finished, AtStart, Underway, Pow2, Quot, MergeSeq;
    var p1 := p0[1 := p][2 := q];
    var u := FinishTurn(c, f0, s, w1, r + 2, p1, 2, e, lo);
    var p2 := p0[1 := p][2 := ClaimTest(e + 2)];
    assert p1[2 := ClaimTest(e + 2)] == p2;
    t := FinishTurn(c, f0, u, Finished(w1, lo, q), r + 2, p2, 1, r, bl);
    assert p2[1 := ClaimTest(r + 2)] == p0[1 := ClaimTest(r + 2)][2 := ClaimTest(e + 2)];
  }

  lemma MergesFinished(c: Config, f0: seq<seq<Rec>>, s: State, w: seq<Rec>, e: nat, b: nat) returns (t: State)
    requires Valid(c) && Reached(c, f0, s) && SortedChunk(c, e, w)
    requires e + 2 <= c.Blocks() && (b == e || b == e + 1) && b + 2 <= c.Blocks()
    requires var w1 := Doubled(w, c.BlockLen(), e);
      Scene(c, s, w1, c.Blocks() + 2, AtStart(c)[1 := ExtraCopied(c, w1, b)][2 := HalfMerged(c, w, e)])
    ensures Reached(c, f0, t)
    ensures Scene(c, t, Doubled(w, c.BlockLen(), e), c.Blocks() + 2,
                  AtStart(c)[1 := ClaimTest(c.Blocks() + 2)][2 := ClaimTest(e + 2)])
  {
    hide Reached, Scene, SortedChunk, Valid, Blk, Doubled, InHands, AtStart, Pow2, Quot;
    var n := c.BlockLen();
    var w1 := Doubled(w, n, e);
    EnoughOfAll(c);
    HandsFacts(c, w, e, b, n, e * n, b * n);
    t := BothFinish(c, f0, s, w1, e, e * n, b * n, HalfMerged(c, w, e), ExtraCopied(c, w1, b));
  }

  /** Everybody goes on to the barrier. */
  lemma EverybodyLeaves(c: Config, f0: seq<seq<Rec>>, s: State, w1: seq<Rec>, e: nat) returns (t: State)
    requires Valid(c) && Reached(c, f0, s) && e % 2 == 0 && e + 2 <= c.Blocks()
    requires Scene(c, s, w1, c.Blocks() + 2, AtStart(c)[1 := ClaimTest(c.Blocks() + 2)][2 := ClaimTest(e + 2)])
    ensures Reached(c, f0, t)
    ensures Scene(c, t, w1, c.Blocks() + 2, seq(c.Threads(), _ => Wait(RoundEnd)))
  {
    var r := c.Blocks();
    hide Reached, Scene, Valid, Pow2, Quot;
    EnoughOfAll(c);
    var p3 := AtStart(c)[1 := ClaimTest(r + 2)][2 := ClaimTest(e + 2)];
    var s1 := LeaveTurn(c, f0, s, w1, p3, 1, r + 2);
    var p4 := p3[1 := Wait(RoundEnd)];
    var s2 := LeaveTurn(c, f0, s1, w1, p4, 2, e + 2);
    t := AllLeave(c, f0, s2, w1, p4[2 := Wait(RoundEnd)], 0);
  }

  /** From the beginning of the round to its last barrier, with the run at e lost. */
  lemma RoundLoses(c: Config, f0: seq<seq<Rec>>, s: State, w: seq<Rec>, b: nat) returns (t: State)
    requires Valid(c) && Reached(c, f0, s) && c.over.block == b && b + 2 <= c.Blocks()
    requires Scene(c, s, w, 0, AtStart(c)) && SortedChunk(c, First(b), w)
    ensures Reached(c, f0, t)
    ensures Scene(c, t, Doubled(w, c.BlockLen(), First(b)), c.Blocks() + 2, seq(c.Threads(), _ => Wait(RoundEnd)))
  {
    var e := First(b);
    hide Reached, Scene, SortedChunk, Valid, Doubled, AtStart, HalfMerged, ExtraCopied;
    assert e % 2 == 0 && e + 2 <= c.Blocks() && (b == e || b == e + 1);
    var s1 := PairClaimed(c, f0, s, w, e);
    var s2 := PairHalfMerged(c, f0, s1, w, e);
    var s3 := OthersMerged(c, f0, s2, w, e, HalfMerged(c, w, e));
    var s4 := VisitorCopied(c, f0, s3, Doubled(w, c.BlockLen(), e), b, HalfMerged(c, w, e));
    var s5 := MergesFinished(c, f0, s4, w, e, b);
    t := EverybodyLeaves(c, f0, s5, Doubled(w, c.BlockLen(), e), e);
  }
}
