/** The exact condition under which complete runs keep all records: the word past the claim map
    is harmless, or names no two runs of the window. */
module SortHarm {
  import opened Base
  import opened Runs
  import opened Blocks
  import opened SortModel
  import opened SortInvariant
  import opened SortSteps
  import opened SortTheorems
  import opened SortTermination
  import opened SortGuard
  import opened SortTurns
  import opened SortLoss

  // --------------------------------------------- up to the beginning of the round

  /** The first round of the only chunk is to come; once the blocks are sorted, they are so. */
  ghost predicate WayToRound(c: Config, f0: seq<seq<Rec>>, s: State) {
    && BeforeVisit(c, f0, s) && |s.file| == |f0| == 1 && PhaseOf(s.pcs[0]) != Claiming
    && (PhaseOf(s.pcs[0]) == Between || PhaseOf(s.pcs[0]) == Halving ==> SortedBlocksOf(c, f0[0], s.file[0]))
  }

  ghost predicate RoundBegun(c: Config, f0: seq<seq<Rec>>, s: State) {
    |s.file| == |f0| == 1 && Scene(c, s, s.file[0], 0, AtStart(c)) && SortedBlocksOf(c, f0[0], s.file[0])
  }

  lemma NoVisitHere(c: Config, f0: seq<seq<Rec>>, s: State)
    requires Inv(c, f0, s) && s.pcs != [] && PhaseOf(s.pcs[0]) != Claiming
    ensures forall q :: !FirstVisit(c, f0, s, q)
  {
    forall q: nat
      ensures !FirstVisit(c, f0, s, q)
    {
      assert q < |s.pcs| ==> PhaseOf(s.pcs[q]) == PhaseOf(s.pcs[0]);
    }
  }

  lemma WayMove(c: Config, f0: seq<seq<Rec>>, s: State, p: nat)
    requires Valid(c) && WayToRound(c, f0, s) && CanMove(s, p) && MapsWell(c, s, Move(p))
    requires Inv(c, f0, StepOf(c, s, p)) && OnTheWay(c, f0, StepOf(c, s, p))
    ensures WayToRound(c, f0, StepOf(c, s, p))
  {
    var t := StepOf(c, s, p);
    MoveFrame(c, f0, s, p);
    PhaseAfterMove(c, f0, s, t, p);
    NoVisitHere(c, f0, t);
    assert BeforeVisit(c, f0, t);
    assert t.file == s.file || PhaseOf(s.pcs[0]) == Opening || PhaseOf(s.pcs[0]) == Sorting by {
      WayFile(c, f0, s, p);
    }
    assert |t.file| == 1;
    hide Inv, StepOf, BeforeVisit, SortedBlocksOf, MapsWell, OnTheWay;
  }

  lemma WayFile(c: Config, f0: seq<seq<Rec>>, s: State, p: nat)
    requires BeforeVisit(c, f0, s) && CanMove(s, p) && Inv(c, f0, StepOf(c, s, p))
    ensures PhaseOf(s.pcs[0]) == Between || PhaseOf(s.pcs[0]) == Halving ==> StepOf(c, s, p).file == s.file
  {
    assert PhaseOf(s.pcs[p]) == PhaseOf(s.pcs[0]);
    if PhaseOf(s.pcs[0]) == Between {
      hide Inv, StepOf, RoundComing;
      ComingMove(c, f0, s, p);
    } else if PhaseOf(s.pcs[0]) == Halving {
      assert s.pcs[p] == Halve;
      hide Inv;
    }
  }

  lemma WayOpen(c: Config, f0: seq<seq<Rec>>, s: State)
    requires Valid(c) && !c.over.isBusy && WayToRound(c, f0, s) && Enabled(s, Open)
    requires Inv(c, f0, Next(c, s, Open))
    ensures WayToRound(c, f0, Next(c, s, Open)) || RoundBegun(c, f0, Next(c, s, Open))
  {
    var t := Next(c, s, Open);
    VisitOpen(c, f0, s);
    assert t.file == s.file && t.pcs[0] == AfterWait(s.pcs[0].at);
    if PhaseOf(s.pcs[0]) == Sorting {
      SortedWhenOpen(c, f0, s);
    } else if PhaseOf(s.pcs[0]) == Halving {
      RoundBegins(c, f0, s);
    }
    hide Inv, BeforeVisit, SortedBlocksOf, Next, RoundBegun;
  }

  lemma SortedWhenOpen(c: Config, f0: seq<seq<Rec>>, s: State)
    requires Valid(c) && Inv(c, f0, s) && PhaseOf(s.pcs[0]) == Sorting && Enabled(s, Open) && |s.file| == |f0| == 1
    ensures SortedBlocksOf(c, f0[0], s.file[0])
  {
    forall p | 0 <= p < |s.pcs|
      ensures s.pcs[p] == Wait(BlocksSorted)
    {
      assert PhaseOf(s.pcs[p]) == Sorting && s.pcs[p].Wait?;
    }
    hide Target, MergeAll, BlockClaim;
    SortingComplete(c, f0, s);
    SortedWindow(c, f0[s.at], s.file[s.at], s.log.sorts);
  }

  lemma RoundBegins(c: Config, f0: seq<seq<Rec>>, s: State)
    requires Valid(c) && !c.over.isBusy && WayToRound(c, f0, s) && PhaseOf(s.pcs[0]) == Halving && Enabled(s, Open)
    ensures RoundBegun(c, f0, Next(c, s, Open))
  {
    var t := Next(c, s, Open);
    forall p | 0 <= p < |t.pcs|
      ensures t.pcs[p] == ClaimTest(0)
    {
      assert PhaseOf(s.pcs[p]) == Halving;
    }
    hide Target, MergeAll, SortedBlocksOf;
    FirstRound(c, 0);
    assert t.pcs == AtStart(c);
    assert s.at == 0 && s.file == [s.file[0]];
    assert RoundReady(c, f0, s);
  }

  lemma {:induction false} BeginFrom(c: Config, f0: seq<seq<Rec>>, s: State) returns (t: State)
    requires Valid(c) && !c.over.isBusy && Reached(c, f0, s) && (WayToRound(c, f0, s) || RoundBegun(c, f0, s))
    requires Inv(c, f0, s)
    ensures Reached(c, f0, t) && RoundBegun(c, f0, t)
    decreases MeasureNat(c, f0, s)
  {
    if RoundBegun(c, f0, s) {
      t := s;
    } else {
      assert BeforeVisit(c, f0, s);
      hide Inv, Reached, RoundBegun, BeforeVisit, MapsWell, VisitOk, PromptAct, Next, Enabled;
      var a := VisitStep(c, f0, s);
      WayStep(c, f0, s, a);
      ReachedNext(c, f0, s, a);
      t := BeginFrom(c, f0, Next(c, s, a));
    }
  }

  lemma WayStep(c: Config, f0: seq<seq<Rec>>, s: State, a: Act)
    requires Valid(c) && !c.over.isBusy && WayToRound(c, f0, s) && Enabled(s, a) && PromptAct(s, a)
    requires Inv(c, f0, Next(c, s, a)) && OnTheWay(c, f0, Next(c, s, a))
    ensures WayToRound(c, f0, Next(c, s, a)) || RoundBegun(c, f0, Next(c, s, a))
  {
    hide Inv, RoundBegun, StepOf, MapsWell, VisitOk;
    BeforeVisitIsSafe(c, f0, s, a);
    hide WayToRound, OnTheWay, BeforeVisit;
    match a
    case Move(p) => WayMove(c, f0, s, p);
    case Open => WayOpen(c, f0, s);
  }

  /** The first round begins with the sorted blocks of the chunk. */
  lemma RoundReached(c: Config, o: seq<Rec>) returns (s: State)
    requires Valid(c) && !c.over.isBusy && |o| == c.memsize
    ensures Reached(c, [o], s) && RoundBegun(c, [o], s)
  {
    var s0 := Init(c, [o]);
    InitInv(c, [o]);
    assert Reached(c, [o], s0) by {
      assert Legal(c, s0, []) && Prompt(c, s0, []) && s0 == Run(c, s0, []);
    }
    assert WayToRound(c, [o], s0) by { hide Inv; }
    hide Inv, Reached, WayToRound, RoundBegun;
    s := BeginFrom(c, [o], s0);
  }

  // ------------------------------------------------- the round as another chunk's

  /** A chunk whose sorted blocks are the window in which run e has been doubled: instead of its
      own block e it has, sorted or not, the contents of block e + 1. */
  function Altered(c: Config, e: nat, w: seq<Rec>): seq<Rec> {
    var n, o := c.BlockLen(), Chunk(c.BlockLen(), c.Blocks(), e);
    var z := Blk(o, n, e + 1);
    SetBlk(o, n, e, if Blk(w, n, e + 1) == c.qsort(z) then z else c.qsort(z))
  }

  lemma AlteredBlocks(c: Config, e: nat, w: seq<Rec>, i: nat)
    requires Valid(c) && SortedChunk(c, e, w) && e + 1 < c.Blocks() && i < c.Blocks()
    ensures var n, o, a := c.BlockLen(), Chunk(c.BlockLen(), c.Blocks(), e), Altered(c, e, w);
      && |a| == |o| == c.memsize
      && (i != e ==> Blk(a, n, i) == Blk(o, n, i))
      && |Blk(a, n, e)| == n && multiset(Blk(a, n, e)) == multiset(Blk(o, n, e + 1))
      && c.qsort(Blk(a, n, e)) == Blk(w, n, e + 1)
  {
    BlockLenExact(c);
    var n, o := c.BlockLen(), Chunk(c.BlockLen(), c.Blocks(), e);
    var z := Blk(o, n, e + 1);
    ChunkBlock(n, c.Blocks(), e, e + 1);
    QsortLength(c, z);
    var v := if Blk(w, n, e + 1) == c.qsort(z) then z else c.qsort(z);
    SetBlkSplit(o, n, c.Blocks(), e, i, v);
    SetBlkSplit(o, n, c.Blocks(), e, e, v);
    hide Blk, SetBlk, Chunk, Valid;
  }

  lemma DoubledIsSorted(c: Config, e: nat, w: seq<Rec>)
    requires Valid(c) && SortedChunk(c, e, w) && e + 1 < c.Blocks()
    ensures SortedBlocksOf(c, Altered(c, e, w), Doubled(w, c.BlockLen(), e))
  {
    var a, u, n := Altered(c, e, w), Doubled(w, c.BlockLen(), e), c.BlockLen();
    forall i | 0 <= i < c.Blocks()
      ensures var b := Blk(a, n, i);
        Blk(u, n, i) == c.qsort(b) || (i == c.amount && Blk(u, n, i) == c.qsort(c.qsort(b)))
    {
      AlteredBlocks(c, e, w, i);
      DoubledBlock(c, e, w, i);
      hide Altered, Doubled, Blk, Chunk, Valid;
    }
    AlteredBlocks(c, e, w, e);
    DoubledBlock(c, e, w, e);
    hide Altered, Doubled, Blk, SortedChunk, Chunk, Valid;
  }

  lemma MissingRecord(o: seq<Rec>, a: seq<Rec>, lo: nat)
    requires lo < |o| && o[lo].recno == lo && forall k | 0 <= k < |a| :: a[k].recno != lo
    ensures multiset(a) != multiset(o)
  {
    assert o[lo] in multiset(o) && o[lo] !in a;
    assert o[lo] !in multiset(a);
  }

  /** The first record of block e is no longer there. */
  lemma RecordMissing(c: Config, e: nat, w: seq<Rec>)
    requires Valid(c) && SortedChunk(c, e, w) && e + 1 < c.Blocks()
    ensures multiset(Altered(c, e, w)) != multiset(Chunk(c.BlockLen(), c.Blocks(), e))
  {
    hide Altered, Chunk, SortedChunk, Valid, Pow2, Quot;
    var lo := e * c.BlockLen();
    FirstRecord(c, e, lo);
    AlteredRecords(c, e, w, lo);
    MissingRecord(Chunk(c.BlockLen(), c.Blocks(), e), Altered(c, e, w), lo);
  }

  lemma AlteredRecords(c: Config, e: nat, w: seq<Rec>, lo: nat)
    requires Valid(c) && SortedChunk(c, e, w) && e + 1 < c.Blocks() && lo == e * c.BlockLen()
    ensures forall k | 0 <= k < |Altered(c, e, w)| :: Altered(c, e, w)[k].recno != lo
  {
    hide Altered, SortedChunk, Valid, Pow2, Quot;
    forall k | 0 <= k < |Altered(c, e, w)|
      ensures Altered(c, e, w)[k].recno != lo
    {
      AlteredRecord(c, e, w, k);
    }
  }

  lemma FirstRecord(c: Config, e: nat, lo: nat)
    requires Valid(c) && e < c.Blocks() && lo == e * c.BlockLen()
    ensures var o := Chunk(c.BlockLen(), c.Blocks(), e); lo < |o| && o[lo].recno == lo
  {
    BlockLenExact(c);
    Fits(c.BlockLen(), c.Blocks(), e, 1);
    hide MarkOf, Valid;
  }

  lemma AlteredRecord(c: Config, e: nat, w: seq<Rec>, k: nat)
    requires Valid(c) && SortedChunk(c, e, w) && e + 1 < c.Blocks() && k < |Altered(c, e, w)|
    ensures Altered(c, e, w)[k].recno != e * c.BlockLen()
  {
    BlockLenExact(c);
    var n, a, o := c.BlockLen(), Altered(c, e, w), Chunk(c.BlockLen(), c.Blocks(), e);
    var lo := e * n;
    AlteredBlocks(c, e, w, e);
    ChunkBlock(n, c.Blocks(), e, e + 1);
    Fits(n, c.Blocks(), e, 2);
    assert (e + 1) * n == lo + n;
    SetBlkRecord(o, a, n, lo, k);
    if lo <= k < lo + n {
      assert a[k] in Blk(a, n, e);
      assert a[k] in multiset(Blk(o, n, e + 1));
    }
  }

  /** a is o with the n records from lo on replaced. */
  lemma SetBlkRecord(o: seq<Rec>, a: seq<Rec>, n: nat, lo: nat, k: nat)
    requires lo + n <= |o| == |a| && k < |a|
    requires a[..lo] == o[..lo] && a[lo + n..] == o[lo + n..]
    ensures k < lo || lo + n <= k ==> a[k] == o[k]
    ensures lo <= k < lo + n ==> a[k] == a[lo..lo + n][k - lo]
  {
    if k < lo {
      assert a[k] == a[..lo][k] == o[..lo][k];
    } else if lo + n <= k {
      assert a[k] == a[lo + n..][k - lo - n] == o[lo + n..][k - lo - n];
    }
  }

  lemma CalmPair(w: seq<Rec>, n: nat, i: nat)
    requires Calm(w, n, i) && |Blk(w, n, i)| == |Blk(w, n, i + 1)| == n
    ensures Pair(w, n, i) == MergeSeq(Blk(w, n, i), Blk(w, n, i + 1))
  {
    var m, lo := MergeSeq(Blk(w, n, i), Blk(w, n, i + 1)), i * n;
    assert PairMerged(w, n, i)[lo..lo + 2 * n] == m;
    hide Blk, MergeSeq;
  }

  lemma DoubledPair(c: Config, e: nat, w: seq<Rec>, j: nat)
    requires Valid(c) && SortedChunk(c, e, w) && e % 2 == j % 2 == 0 && e + 1 < c.Blocks() && j + 2 <= c.Blocks()
    ensures var n, u := c.BlockLen(), Doubled(w, c.BlockLen(), e);
      Pair(u, n, j) == MergeSeq(Blk(u, n, j), Blk(u, n, j + 1))
  {
    hide Doubled, Pair, Blk, MergeSeq, SortedChunk, Valid, Calm, Level, Quot, Pow2;
    DoubledBlock(c, e, w, j);
    DoubledBlock(c, e, w, j + 1);
    DoubledCalm(c, e, w, j);
    CalmPair(Doubled(w, c.BlockLen(), e), c.BlockLen(), j);
  }

  lemma RoundKeeps(u: seq<Rec>, n: nat, r: nat)
    requires n > 0 && |u| == r * n && r % 2 == 0 && r > 1
    requires forall j | 0 <= j < r && j % 2 == 0 :: Pair(u, n, j) == MergeSeq(Blk(u, n, j), Blk(u, n, j + 1))
    ensures MergeAll(u, r) == MergeAll(u, r / 2)
  {
    AllPairsMerged(u, u, n, r, 0);
    assert u[0..] == u;
    QuotientUnique(|u|, r, n);
    hide Pair, Blk, MergeSeq, MergePairs;
  }

  /** The doubled window is what a whole round makes of itself. */
  lemma DoubledRound(c: Config, e: nat, w: seq<Rec>)
    requires Valid(c) && SortedChunk(c, e, w) && e % 2 == 0 && e + 1 < c.Blocks()
    ensures var u := Doubled(w, c.BlockLen(), e);
      |u| == c.memsize && MergeAll(u, c.Blocks()) == MergeAll(u, c.Blocks() / 2)
  {
    hide Doubled, Pair, Blk, MergeSeq, SortedChunk, Valid, MergeAll, Pow2, Quot, Level, MarkOf;
    BlockLenExact(c);
    RunsFacts(c, 0);
    var u, n, r := Doubled(w, c.BlockLen(), e), c.BlockLen(), c.Blocks();
    DoubledBlock(c, e, w, e);
    forall j | 0 <= j < r && j % 2 == 0
      ensures Pair(u, n, j) == MergeSeq(Blk(u, n, j), Blk(u, n, j + 1))
    {
      DoubledPair(c, e, w, j);
    }
    RoundKeeps(u, n, r);
  }

  /** A round that ends with the window u goes on like one of a chunk o whose target is what u
      merges to. */
  lemma RoundEnded(c: Config, s: State, u: seq<Rec>, o: seq<Rec>)
    requires Valid(c) && |o| == c.memsize && Target(c, o, MergeAll(u, c.Blocks() / 2))
    requires Scene(c, s, u, c.Blocks() + 2, seq(c.Threads(), _ => Wait(RoundEnd)))
    ensures Enabled(s, Open) && Late(c, [o], Next(c, s, Open))
  {
    var f0, t := [o], Next(c, s, Open);
    FirstRound(c, 0);
    RunsFacts(c, 0);
    hide Target, MergeAll, SortsBlocks, RunsAfter;
    forall p | 0 <= p < |t.pcs|
      ensures t.pcs[p] == MergeTest
    {
    }
    assert RoundsLeft(c, f0, t) by { hide InPhase; }
    hide RoundsLeft;
    assert RoundComing(c, f0, t);
  }

  /** After the round the program is where it would be if the chunk had been the altered one. */
  lemma AsIfAltered(c: Config, s: State, w: seq<Rec>, e: nat)
    requires Valid(c) && SortedChunk(c, e, w) && e % 2 == 0 && e + 1 < c.Blocks()
    requires Scene(c, s, Doubled(w, c.BlockLen(), e), c.Blocks() + 2, seq(c.Threads(), _ => Wait(RoundEnd)))
    ensures Enabled(s, Open) && Late(c, [Altered(c, e, w)], Next(c, s, Open))
  {
    var o, u := Altered(c, e, w), Doubled(w, c.BlockLen(), e);
    DoubledIsSorted(c, e, w);
    DoubledRound(c, e, w);
    AlteredBlocks(c, e, w, e);
    hide Scene, Altered, Doubled, SortedBlocksOf, SortedChunk, Valid, Blk, MergeAll, Next, Enabled, Late;
    assert Target(c, o, MergeAll(u, c.Blocks() / 2));
    hide Target;
    RoundEnded(c, s, u, o);
  }

  // ---------------------------------------------------- from there to the end

  /** The only chunk is past its first round. */
  ghost predicate Late(c: Config, f0: seq<seq<Rec>>, s: State) {
    && Inv(c, f0, s) && s.pcs != [] && |s.file| == 1
    && match PhaseOf(s.pcs[0])
       case Opening => s.done == 1
       case Sorting => false
       case Between => RoundComing(c, f0, s) ==> s.log.rounds >= 1
       case Halving => if s.pcs[0] == Halve then s.log.rounds >= 1 else s.log.rounds >= 2
       case Claiming => s.log.rounds >= 2
       case Ended => true
       case Lost => false
  }

  lemma LateIsSafe(c: Config, f0: seq<seq<Rec>>, s: State, a: Act)
    requires Valid(c) && Late(c, f0, s) && PromptAct(s, a)
    ensures StepSafe(c, s, a)
  {
    hide Target, MergeAll, PromptAct, MappedWindow;
    if a.Move? && a.p < |s.pcs| && s.pcs[a.p] == ClaimCheck(s.runs) {
      assert PhaseOf(s.pcs[a.p]) == PhaseOf(s.pcs[0]);
      assert VisitGuard(c, s);
      Pow2Monotone(c.order + 1 - s.log.rounds, c.order);
    }
  }

  lemma StillClosing(c: Config, f0: seq<seq<Rec>>, s: State, p: nat)
    requires Inv(c, f0, s) && PhaseOf(s.pcs[0]) == Between && !RoundComing(c, f0, s) && CanMove(s, p)
    requires |StepOf(c, s, p).pcs| == |s.pcs|
    requires StepOf(c, s, p).pcs == s.pcs[p := StepOf(c, s, p).pcs[p]]
    ensures !RoundComing(c, f0, StepOf(c, s, p))
  {
    assert PhaseOf(s.pcs[p]) == Between && ChunkClosing(c, f0, s);
    hide Target, MergeAll, StepMerge, MappedWindow, Common;
    StepFramed(c, s, p);
    if s.pcs[0] == MergeTest {
      assert s.runs == 4;
      if p == 0 {
        assert StepOf(c, s, p).pcs[0].Copy?;
      } else {
        assert StepOf(c, s, p).runs == 4;
      }
    } else if p == 0 && (s.pcs[0] == Advance || s.pcs[0] == Reset) {
      assert !StepOf(c, s, p).pcs[0].MergeTest? && StepOf(c, s, p).pcs[0] != Wait(RoundOpen);
    } else if p == 0 {
      MergeStaysMerge(c, s);
    }
  }

  /** A step of main's last merge does not lead back to the test. */
  lemma MergeStaysMerge(c: Config, s: State)
    requires s.pcs != [] && ((s.pcs[0].Copy? || s.pcs[0].Store?) && s.pcs[0].back == LastMerge)
    ensures !StepMerge(c, s, 0).pcs[0].MergeTest? && !StepMerge(c, s, 0).pcs[0].Wait?
  {
    hide Poke, Blk;
  }

  lemma LateMove(c: Config, f0: seq<seq<Rec>>, s: State, p: nat)
    requires Valid(c) && Late(c, f0, s) && CanMove(s, p) && MapsWell(c, s, Move(p)) && Inv(c, f0, StepOf(c, s, p))
    ensures Late(c, f0, StepOf(c, s, p))
  {
    var t := StepOf(c, s, p);
    MoveFrame(c, f0, s, p);
    PhaseAfterMove(c, f0, s, t, p);
    StepFramed(c, s, p);
    assert PhaseOf(s.pcs[p]) == PhaseOf(s.pcs[0]);
    if PhaseOf(s.pcs[0]) == Between {
      hide Inv, StepOf, RoundComing, MapsWell;
      if RoundComing(c, f0, s) {
        ComingMove(c, f0, s, p);
      } else {
        StillClosing(c, f0, s, p);
      }
    } else {
      RoundsKept(c, s, p);
      if PhaseOf(s.pcs[0]) == Halving {
        HalvedOnce(c, f0, s, p);
      }
      hide Inv, StepOf, RoundComing, MapsWell;
    }
  }

  /** Outside the closing of a chunk only main's halving counts a round. */
  lemma RoundsKept(c: Config, s: State, p: nat)
    requires CanMove(s, p) && s.pcs[p] != Reset
    ensures StepOf(c, s, p).log.rounds == s.log.rounds + (if s.pcs[p] == Halve && p == 0 then 1 else 0)
  {
    hide SetBlk, Blk, Poke, FreshMap, ClearMap, MappedWindow;
  }

  lemma HalvedOnce(c: Config, f0: seq<seq<Rec>>, s: State, p: nat)
    requires Inv(c, f0, s) && CanMove(s, p) && PhaseOf(s.pcs[0]) == Halving
    ensures s.pcs[p] == Halve && |StepOf(c, s, p).pcs| == |s.pcs| && StepOf(c, s, p).pcs[p] == Wait(RoundGo)
  {
    assert PhaseOf(s.pcs[p]) == Halving;
    hide Inv;
  }

  lemma LateOpen(c: Config, f0: seq<seq<Rec>>, s: State)
    requires Valid(c) && Late(c, f0, s) && Enabled(s, Open) && Inv(c, f0, Next(c, s, Open))
    ensures Late(c, f0, Next(c, s, Open))
  {
    var t := Next(c, s, Open);
    assert s.pcs[0].Wait? && t.pcs[0] == AfterWait(s.pcs[0].at);
    hide Target, MergeAll;
    if PhaseOf(s.pcs[0]) == Opening {
      assert OpeningPc(s, 0, s.pcs[0]);
    } else if PhaseOf(s.pcs[0]) == Between && !RoundComing(c, f0, s) {
      assert ChunkClosing(c, f0, s);
    }
    hide Next, OpeningInv, SortingInv, HalvingInv, ClaimingInv;
  }

  lemma {:induction false} LateEnds(c: Config, f0: seq<seq<Rec>>, o: seq<Rec>, s: State) returns (t: State)
    requires Valid(c) && Reached(c, [o], s) && Late(c, f0, s)
    ensures Reached(c, [o], t) && AllDone(t) && Inv(c, f0, t)
    decreases MeasureNat(c, f0, s)
  {
    SomebodyMoves(c, f0, s);
    hide Inv, Reached, AllDone, Late, MapsWell, VisitOk, PromptAct, Next, Enabled;
    if AllDone(s) {
      t := s;
    } else {
      var a :| Enabled(s, a) && PromptAct(s, a);
      LateStep(c, f0, s, a);
      ReachedNext(c, [o], s, a);
      t := LateEnds(c, f0, o, Next(c, s, a));
    }
  }

  lemma LateStep(c: Config, f0: seq<seq<Rec>>, s: State, a: Act)
    requires Valid(c) && Late(c, f0, s) && Enabled(s, a) && PromptAct(s, a)
    ensures Inv(c, f0, s) && Late(c, f0, Next(c, s, a)) && Inv(c, f0, Next(c, s, a))
    ensures MeasureNat(c, f0, Next(c, s, a)) < MeasureNat(c, f0, s)
  {
    LateIsSafe(c, f0, s, a);
    hide Inv, MapsWell, VisitOk, PromptAct, StepOf, Measure;
    StepKeepsInv(c, f0, s, a);
    StepLowersMeasure(c, f0, s, a);
    hide Late;
    match a
    case Move(p) => LateMove(c, f0, s, p);
    case Open => LateOpen(c, f0, s);
  }

  // --------------------------------------------------- runs that lose records

  /** A complete run after which some chunk is no permutation of what it was. */
  ghost predicate LosesRecords(c: Config, f0: seq<seq<Rec>>, s: State) {
    && Tiled(c, f0) && Mappable(c, |f0|) && Reached(c, f0, s) && AllDone(s) && |s.file| == |f0|
    && exists j | 0 <= j < |f0| :: multiset(s.file[j]) != multiset(f0[j])
  }

  lemma HarmfulLoses(c: Config) returns (f0: seq<seq<Rec>>, s: State)
    requires Valid(c) && !Harmless(c.over) && NamesPair(c, c.over)
    ensures LosesRecords(c, f0, s)
  {
    BlockLenExact(c);
    var b: nat := c.over.block;
    var e, n := First(b), c.BlockLen();
    var o := Chunk(n, c.Blocks(), e);
    f0 := [o];
    RunsFacts(c, 0);
    assert e + 2 <= c.Blocks() && e % 2 == 0;
    hide Valid, Chunk, Reached, Inv, SortedBlocksOf, Altered, Doubled, RoundBegun, Scene, Late, AllDone;
    hide Next, Enabled, Pow2, Quot;
    var s1 := RoundReached(c, o);
    var w := s1.file[0];
    StartOfRound(c, o, e, s1);
    var s2 := RoundLoses(c, f0, s1, w, b);
    AsIfAltered(c, s2, w, e);
    ReachedNext(c, f0, s2, Open);
    s := LateEnds(c, [Altered(c, e, w)], o, Next(c, s2, Open));
    AlteredDone(c, e, w, s);
    RecordMissing(c, e, w);
    OneChunk(c, o);
    assert multiset(s.file[0]) != multiset(f0[0]);
  }

  lemma StartOfRound(c: Config, o: seq<Rec>, e: nat, s: State)
    requires RoundBegun(c, [o], s) && o == Chunk(c.BlockLen(), c.Blocks(), e)
    ensures |s.file| == 1 && Scene(c, s, s.file[0], 0, AtStart(c)) && SortedChunk(c, e, s.file[0])
  {
    hide Scene, SortedBlocksOf, Chunk;
  }

  lemma OneChunk(c: Config, o: seq<Rec>)
    requires |o| == c.memsize
    ensures Tiled(c, [o]) && Mappable(c, 1)
  {
  }

  lemma AlteredDone(c: Config, e: nat, w: seq<Rec>, s: State)
    requires Valid(c) && Inv(c, [Altered(c, e, w)], s) && AllDone(s)
    ensures |s.file| == 1 && multiset(s.file[0]) == multiset(Altered(c, e, w))
  {
    assert s.pcs[0] == Done;
    assert s.at == 1;
    hide Target, Altered, PhaseInv;
    assert Target(c, Altered(c, e, w), s.file[0]);
    TargetSorted(c, Altered(c, e, w), s.file[0]);
  }

  // ------------------------------------------------------ runs that go astray

  /** Participant p has gone from the visit towards a merge of what is no pair. */
  ghost predicate Harmed(c: Config, s: State, p: nat) {
    && p < |s.pcs| && s.at < |s.file| && |s.file[s.at]| == c.memsize && s.runs == c.Blocks()
    && c.Blocks() < |s.claims| && s.claims[c.Blocks()].block == c.over.block
    && (forall q | 0 <= q < |s.pcs| :: PhaseOf(s.pcs[q]) == Claiming || s.pcs[q] == Wild)
    && (|| s.pcs[p] == ClaimSet(c.Blocks()) || s.pcs[p] == ClaimUnlock(c.Blocks(), c.over.block)
        || s.pcs[p] == Copy(c.over.block, c.Blocks(), ClaimLoop(c.Blocks())) || s.pcs[p] == Wild)
  }

  /** What a step in the claim loop leaves of it. */
  ghost predicate LoopStep(c: Config, s: State, t: State, q: nat) {
    && q < |s.pcs| == |t.pcs| && t.pcs == s.pcs[q := t.pcs[q]]
    && (PhaseOf(t.pcs[q]) == Claiming || t.pcs[q] == Wild)
    && t.at == s.at < |s.file| == |t.file| && |t.file[t.at]| == |s.file[s.at]| && t.runs == s.runs
    && |t.claims| == |s.claims| && (forall k | 0 <= k < |s.claims| :: t.claims[k].block == s.claims[k].block)
  }

  lemma ClaimLoopStep(c: Config, s: State, q: nat)
    requires CanMove(s, q) && s.at < |s.file| && PhaseOf(s.pcs[q]) == Claiming && !s.pcs[q].Copy? && !s.pcs[q].Store?
    ensures LoopStep(c, s, StepClaim(c, s, q), q)
  {
  }

  lemma MergeLoopStep(c: Config, s: State, q: nat)
    requires CanMove(s, q) && s.at < |s.file| && PhaseOf(s.pcs[q]) == Claiming && (s.pcs[q].Copy? || s.pcs[q].Store?)
    ensures LoopStep(c, s, StepMerge(c, s, q), q)
  {
    hide Blk;
  }

  lemma HarmedStep(c: Config, s: State, p: nat, a: Act)
    requires Valid(c) && !NamesPair(c, c.over) && c.over.block != -1 && Harmed(c, s, p) && Enabled(s, a)
    ensures Harmed(c, Next(c, s, a), p)
  {
    assert a.Move?;
    var q := a.p;
    assert PhaseOf(s.pcs[q]) == Claiming;
    if s.pcs[q].Copy? || s.pcs[q].Store? {
      MergeLoopStep(c, s, q);
      if q == p {
        CopyOutcome(c, s, p, c.over.block, ClaimLoop(c.Blocks()));
      }
      hide StepMerge;
    } else {
      ClaimLoopStep(c, s, q);
      assert q == p && s.pcs[p] == ClaimSet(c.Blocks()) ==>
        StepClaim(c, s, p).pcs[p] == ClaimUnlock(c.Blocks(), c.over.block);
      assert q == p && s.pcs[p] == ClaimUnlock(c.Blocks(), c.over.block) ==>
        StepClaim(c, s, p).pcs[p] == Copy(c.over.block, c.Blocks(), ClaimLoop(c.Blocks()));
      hide StepClaim;
    }
  }

  /** A visit that is not harmless starts it. */
  lemma VisitHarms(c: Config, f0: seq<seq<Rec>>, s: State, p: nat)
    requires Valid(c) && Inv(c, f0, s) && CanMove(s, p) && !VisitOk(s, Move(p))
    ensures Harmed(c, StepOf(c, s, p), p)
  {
    assert PhaseOf(s.pcs[p]) == PhaseOf(s.pcs[0]) == Claiming;
    assert VisitGuard(c, s) && |s.file[s.at]| == c.memsize && s.at < |s.file|;
    assert forall q | 0 <= q < |s.pcs| :: PhaseOf(s.pcs[q]) == Claiming;
    hide Inv;
  }

  ghost predicate SoundOrHarmed(c: Config, f0: seq<seq<Rec>>, s: State) {
    Inv(c, f0, s) || exists p :: Harmed(c, s, p)
  }

  lemma SoundOrHarmedStep(c: Config, f0: seq<seq<Rec>>, s: State, a: Act)
    requires Valid(c) && Mappable(c, |f0|) && !NamesPair(c, c.over) && c.over.block != -1
    requires SoundOrHarmed(c, f0, s) && Enabled(s, a) && PromptAct(s, a)
    ensures SoundOrHarmed(c, f0, Next(c, s, a))
  {
    if p: nat :| Harmed(c, s, p) {
      HarmedStep(c, s, p, a);
      hide Inv, Next, Harmed;
    } else if VisitOk(s, a) {
      assert |s.file| == |f0|;
      MappableMapsWell(c, s, a);
      hide Inv, Next, Harmed, MapsWell, VisitOk, PromptAct, Mappable;
      StepKeepsInv(c, f0, s, a);
    } else {
      hide Harmed, Inv;
      VisitHarms(c, f0, s, a.p);
    }
  }

  lemma {:induction false} RunSoundOrHarmed(c: Config, f0: seq<seq<Rec>>, s: State, acts: seq<Act>)
    requires Valid(c) && Mappable(c, |f0|) && !NamesPair(c, c.over) && c.over.block != -1
    requires SoundOrHarmed(c, f0, s) && Legal(c, s, acts) && Prompt(c, s, acts)
    ensures SoundOrHarmed(c, f0, Run(c, s, acts))
    decreases |acts|
  {
    hide SoundOrHarmed, Next, Enabled, PromptAct, Mappable;
    if acts != [] {
      SoundOrHarmedStep(c, f0, s, acts[0]);
      RunSoundOrHarmed(c, f0, Next(c, s, acts[0]), acts[1..]);
    }
  }

  /** A complete run that has kept the invariant has kept all records. */
  lemma SoundKeeps(c: Config, f0: seq<seq<Rec>>, s: State)
    requires Valid(c) && SoundOrHarmed(c, f0, s) && AllDone(s)
    ensures !LosesRecords(c, f0, s)
  {
    HarmedNeverDone(c, s);
    assert s.pcs[0] == Done;
    assert s.at == |s.file|;
    hide Target, PhaseInv, Reached;
    forall j | 0 <= j < |f0| == |s.file|
      ensures multiset(s.file[j]) == multiset(f0[j])
    {
      TargetSorted(c, f0[j], s.file[j]);
    }
  }

  lemma HarmedNeverDone(c: Config, s: State)
    requires AllDone(s)
    ensures forall p :: !Harmed(c, s, p)
  {
  }

  /** Exactly when a complete run can lose records, all else being as the program assumes: the
      word past the claim map is free, is not -1 and names two runs of the window. */
  lemma LossIff(c: Config)
    requires Valid(c)
    ensures (exists f0, s :: LosesRecords(c, f0, s)) <==> (!Harmless(c.over) && NamesPair(c, c.over))
  {
    if !Harmless(c.over) && NamesPair(c, c.over) {
      var f0, s := HarmfulLoses(c);
    } else {
      forall f0, s
        ensures !LosesRecords(c, f0, s)
      {
        if Tiled(c, f0) && Mappable(c, |f0|) && Reached(c, f0, s) && AllDone(s) {
          NothingLost(c, f0, s);
        }
      }
    }
  }

  lemma NothingLost(c: Config, f0: seq<seq<Rec>>, s: State)
    requires Valid(c) && (Harmless(c.over) || !NamesPair(c, c.over))
    requires Tiled(c, f0) && Mappable(c, |f0|) && Reached(c, f0, s) && AllDone(s)
    ensures !LosesRecords(c, f0, s)
  {
    if Harmless(c.over) {
      hide Mappable, Reached, AllDone, Target, Sorted;
      EndToEnd(c, f0, s);
    } else {
      InitInv(c, f0);
      hide Inv, LosesRecords, AllDone, Mappable;
      var acts :| Legal(c, Init(c, f0), acts) && Prompt(c, Init(c, f0), acts) && s == Run(c, Init(c, f0), acts);
      RunSoundOrHarmed(c, f0, Init(c, f0), acts);
      SoundKeeps(c, f0, s);
    }
  }
}
