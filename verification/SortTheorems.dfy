/** What every run of the sort_index threads does, whatever the schedule. */
module SortTheorems {
  import opened Base
  import opened Runs
  import opened Blocks
  import opened SortModel
  import opened SortInvariant
  import opened SortSteps
  import opened SortRounds
  import opened SortClaims
  import opened Windows

  // ------------------------------------------------------------- reachability

  /** A file cut into windows of memsize records. */
  ghost predicate Tiled(c: Config, f0: seq<seq<Rec>>) {
    forall j | 0 <= j < |f0| :: |f0[j]| == c.memsize
  }

  /** The offset of chunk j in bytes fits an int. */
  predicate OffsetFits(c: Config, j: nat) {
    j * c.memsize * RECORD < 0x8000_0000
  }

  /** So does that of the last of n chunks, and then all of them do. */
  predicate Mappable(c: Config, n: nat) {
    n > 0 ==> OffsetFits(c, n - 1)
  }

  /** The window of chunk j is mapped for it just when its byte offset fits an int. */
  lemma MapsRightIff(c: Config, j: nat, n: nat)
    requires c.memsize > 0 && j < n
    ensures MappedWindow(c, j, n) == Some(j) <==> OffsetFits(c, j)
  {
    var len := c.memsize * RECORD;
    var off := MapOffset(j * c.memsize);
    MappedRecord(j * c.memsize, 0);
    assert off == j * c.memsize * RECORD <==> j * c.memsize * RECORD < 0x8000_0000;
    assert j * c.memsize * RECORD == len * j;
    if off == len * j {
      QuotientUnique(off, len, j);
    } else if off >= 0 && off % len == 0 {
      assert off == len * (off / len);
    }
  }

  /** As long as offsets fit, main maps every chunk right. */
  lemma MappableMapsWell(c: Config, s: State, a: Act)
    requires c.memsize > 0 && Mappable(c, |s.file|)
    ensures MapsWell(c, s, a)
  {
    var j := s.done + 1;
    if j < |s.file| {
      OffsetGrows(c.memsize, j, |s.file| - 1);
      MapsRightIff(c, j, |s.file|);
    }
  }

  /** In a configuration and on a file that meet the assumptions every prompt act is safe. */
  lemma PromptIsSafe(c: Config, f0: seq<seq<Rec>>, s: State, a: Act)
    requires Guarded(c) && Mappable(c, |f0|) && Inv(c, f0, s) && PromptAct(s, a)
    ensures StepSafe(c, s, a)
  {
    assert |s.file| == |f0|;
    MappableMapsWell(c, s, a);
    GuardedVisitOk(c, f0, s, a);
  }

  lemma GuardedVisitOk(c: Config, f0: seq<seq<Rec>>, s: State, a: Act)
    requires Guarded(c) && Inv(c, f0, s)
    ensures VisitOk(s, a)
  {
    hide Target;
    if a.Move? && a.p < |s.pcs| && s.pcs[a.p] == ClaimCheck(s.runs) {
      assert PhaseOf(s.pcs[a.p]) == PhaseOf(s.pcs[0]);
      assert VisitGuard(c, s);
    }
  }

  lemma OffsetGrows(m: nat, i: nat, j: nat)
    requires i <= j
    ensures i * m * RECORD <= j * m * RECORD
  {
    MulMonotone(i, j, m);
  }

  lemma InitInv(c: Config, f0: seq<seq<Rec>>)
    requires Valid(c) && Tiled(c, f0)
    ensures Inv(c, f0, Init(c, f0))
  {
    hide Target;
    var s := Init(c, f0);
    assert forall p | 0 <= p < |s.pcs| :: s.pcs[p] == LoopTest;
  }

  /** Nobody moves once a participant has left: they all leave together. */
  lemma EndedStays(c: Config, f0: seq<seq<Rec>>, s: State, a: Act)
    requires Inv(c, f0, s) && PhaseOf(s.pcs[0]) == Ended
    ensures !Enabled(s, a) && AllDone(s)
  {
    hide Target, PhaseInv;
    assert forall p | 0 <= p < |s.pcs| :: PhaseOf(s.pcs[p]) == Ended;
    assert s.pcs[0] == Done;
  }

  lemma LostNever(c: Config, f0: seq<seq<Rec>>, s: State)
    requires Inv(c, f0, s)
    ensures PhaseOf(s.pcs[0]) != Lost
  {
    hide Common, InPhase, OpeningInv, SortingInv, BetweenInv, HalvingInv, ClaimingInv;
  }

  /** A prompt act that maps the next chunk, if any, where it lies, and is no harmful visit of
      the entry past the pairs of the round. */
  predicate StepSafe(c: Config, s: State, a: Act) {
    PromptAct(s, a) && MapsWell(c, s, a) && VisitOk(s, a)
  }

  lemma StepKeepsInv(c: Config, f0: seq<seq<Rec>>, s: State, a: Act)
    requires Valid(c) && Inv(c, f0, s) && Enabled(s, a) && StepSafe(c, s, a)
    ensures Inv(c, f0, Next(c, s, a))
  {
    if PhaseOf(s.pcs[0]) == Ended {
      EndedStays(c, f0, s, a);
    }
    assert PhaseOf(s.pcs[0]) != Lost;
    var ph := PhaseOf(s.pcs[0]);
    hide Inv, StepOf, PhaseOf, MapsWell, VisitOk;
    match a
    case Open =>
      if ph == Opening { OpenOpening(c, f0, s); }
      else if ph == Sorting { OpenSorting(c, f0, s); }
      else if ph == Between { OpenBetween(c, f0, s); }
      else if ph == Halving { OpenHalving(c, f0, s); }
      else { OpenClaiming(c, f0, s); }
    case Move(p) =>
      if ph == Opening { KeepOpening(c, f0, s, p); }
      else if ph == Sorting { KeepSorting(c, f0, s, p); }
      else if ph == Between { KeepBetween(c, f0, s, p); }
      else if ph == Halving { KeepHalving(c, f0, s, p); }
      else { KeepClaiming(c, f0, s, p); }
  }

  lemma {:induction false} RunKeepsInv(c: Config, f0: seq<seq<Rec>>, s: State, acts: seq<Act>)
    requires Guarded(c) && Mappable(c, |f0|) && Inv(c, f0, s) && Legal(c, s, acts) && Prompt(c, s, acts)
    ensures Inv(c, f0, Run(c, s, acts))
    decreases |acts|
  {
    hide Inv, Next, Enabled, PromptAct, Mappable, StepSafe;
    if acts != [] {
      PromptIsSafe(c, f0, s, acts[0]);
      StepKeepsInv(c, f0, s, acts[0]);
      RunKeepsInv(c, f0, Next(c, s, acts[0]), acts[1..]);
    }
  }

  /** s is reached from the start by some schedule that restores BLOCKS promptly. */
  ghost predicate Reached(c: Config, f0: seq<seq<Rec>>, s: State) {
    exists acts :: Legal(c, Init(c, f0), acts) && Prompt(c, Init(c, f0), acts) && s == Run(c, Init(c, f0), acts)
  }

  /** The same, in a configuration and on a file that meet the program's assumptions. */
  ghost predicate Reachable(c: Config, f0: seq<seq<Rec>>, s: State) {
    Guarded(c) && Tiled(c, f0) && Mappable(c, |f0|) && Reached(c, f0, s)
  }

  lemma ReachableInv(c: Config, f0: seq<seq<Rec>>, s: State)
    requires Reachable(c, f0, s)
    ensures Inv(c, f0, s)
  {
    hide Inv;
    var acts :| Legal(c, Init(c, f0), acts) && Prompt(c, Init(c, f0), acts) && s == Run(c, Init(c, f0), acts);
    InitInv(c, f0);
    RunKeepsInv(c, f0, Init(c, f0), acts);
  }

  // ------------------------------------------------------------ what is sorted

  lemma BlockFacts(c: Config, o: seq<Rec>, u: seq<Rec>, i: nat)
    requires Valid(c) && SortedBlocksOf(c, o, u) && i < c.Blocks()
    ensures var n := c.BlockLen();
      |Blk(u, n, i)| == |Blk(o, n, i)| == n && Sorted(Blk(u, n, i)) && multiset(Blk(u, n, i)) == multiset(Blk(o, n, i))
  {
    BlockLenExact(c);
    BlkLength(u, c.BlockLen(), c.Blocks(), i);
    BlkLength(o, c.BlockLen(), c.Blocks(), i);
    hide Blk;
    var b := Blk(o, c.BlockLen(), i);
    QsortLength(c, b);
    QsortLength(c, c.qsort(b));
  }

  lemma BlockHead(w: seq<Rec>, n: nat, b: nat, i: nat)
    requires |w| == b * n && i < b
    ensures i * n + n == (i + 1) * n <= |w|
    ensures w[i * n..][..n] == Blk(w, n, i) && w[i * n..][n..] == w[(i + 1) * n..]
    ensures w[i * n..] == Blk(w, n, i) + w[(i + 1) * n..]
  {
    Fits(n, b, i, 1);
  }

  /** After the sort phase the window is a row of sorted runs, a permutation of the old one. */
  lemma {:induction false} SortedBlocksAreRuns(c: Config, o: seq<Rec>, u: seq<Rec>, i: nat)
    requires Valid(c) && SortedBlocksOf(c, o, u) && i <= c.Blocks()
    ensures c.BlockLen() > 0 && i * c.BlockLen() <= |u|
    ensures RunsSorted(u[i * c.BlockLen()..], c.BlockLen())
    ensures multiset(u[i * c.BlockLen()..]) == multiset(o[i * c.BlockLen()..])
    decreases c.Blocks() - i
  {
    BlockLenExact(c);
    var n, b := c.BlockLen(), c.Blocks();
    Fits(n, b, i, 0);
    if i < b {
      BlockHead(u, n, b, i);
      BlockHead(o, n, b, i);
      BlockFacts(c, o, u, i);
      SortedBlocksAreRuns(c, o, u, i + 1);
    } else {
      assert u[i * n..] == [] && o[i * n..] == [];
    }
  }

  /** Equal marks stand in x as in the runs of u, of length n, the last run first. */
  ghost predicate LastRunTies(x: seq<Rec>, u: seq<Rec>, n: nat) {
    n > 0 && forall k: real :: WithMark(x, k) == LastRunFirst(u, n, k)
  }

  /** A target is sorted, holds the same records, and has equal marks in the order of their
      blocks, the last block first. */
  lemma TargetSorted(c: Config, o: seq<Rec>, x: seq<Rec>)
    requires Valid(c) && Target(c, o, x)
    ensures Sorted(x) && multiset(x) == multiset(o)
    ensures exists u :: SortedBlocksOf(c, o, u) && LastRunTies(x, u, c.BlockLen())
  {
    var u :| SortedBlocksOf(c, o, u) && x == MergeAll(u, c.Blocks());
    BlockLenExact(c);
    var n := c.BlockLen();
    SortedBlocksAreRuns(c, o, u, 0);
    assert u[0..] == u && o[0..] == o;
    hide SortedBlocksOf, MergeAll, RunsSorted, Sorted;
    MergeAllSorts(u, n, c.order);
    forall k: real
      ensures WithMark(x, k) == LastRunFirst(u, n, k)
    {
      MergeAllTies(u, n, c.order, k);
    }
  }

  /** The main theorem. Whatever the schedule, once all threads have left, every window of
      the file is sorted by time mark and is a permutation of what it was. */
  lemma EndToEnd(c: Config, f0: seq<seq<Rec>>, s: State)
    requires Guarded(c) && Tiled(c, f0) && Mappable(c, |f0|)
    requires Reached(c, f0, s) && AllDone(s)
    ensures |s.file| == |f0|
    ensures forall j | 0 <= j < |f0| ::
      Sorted(s.file[j]) && multiset(s.file[j]) == multiset(f0[j]) && Target(c, f0[j], s.file[j])
  {
    ReachableInv(c, f0, s);
    assert s.pcs[0] == Done;
    assert Common(c, f0, s) && s.at == |s.file|;
    hide Target, Inv, Sorted;
    forall j | 0 <= j < |f0|
      ensures Sorted(s.file[j]) && multiset(s.file[j]) == multiset(f0[j]) && Target(c, f0[j], s.file[j])
    {
      TargetSorted(c, f0[j], s.file[j]);
    }
  }

  // ------------------------------------------------------ schedule independence

  /** qsort leaves a block it has sorted as it is. */
  ghost predicate Settles(q: seq<Rec> -> seq<Rec>) {
    forall s :: q(q(s)) == q(s)
  }

  /** Every block sorted once, one after the other. */
  function SortEach(q: seq<Rec> -> seq<Rec>, o: seq<Rec>, n: nat): seq<Rec> {
    if n == 0 || |o| < n then [] else q(o[..n]) + SortEach(q, o[n..], n)
  }

  /** What a single thread would make of a window: sort each block, then merge bottom-up. */
  function Sequential(c: Config, o: seq<Rec>): seq<Rec> {
    MergeAll(SortEach(c.qsort, o, c.BlockLen()), c.Blocks())
  }

  lemma SortEachStep(q: seq<Rec> -> seq<Rec>, o: seq<Rec>, n: nat)
    ensures 0 < n <= |o| ==> SortEach(q, o, n) == q(o[..n]) + SortEach(q, o[n..], n)
  {
  }

  lemma BlockOnce(c: Config, o: seq<Rec>, u: seq<Rec>, i: nat)
    requires Settles(c.qsort) && SortedBlocksOf(c, o, u) && i < c.Blocks()
    ensures Blk(u, c.BlockLen(), i) == c.qsort(Blk(o, c.BlockLen(), i))
  {
    hide Blk;
    var k := Blk(o, c.BlockLen(), i);
    assert c.qsort(c.qsort(k)) == c.qsort(k);
  }

  lemma {:induction false} SortedBlocksUnique(c: Config, o: seq<Rec>, u: seq<Rec>, i: nat)
    requires Valid(c) && Settles(c.qsort) && SortedBlocksOf(c, o, u) && i <= c.Blocks()
    ensures i * c.BlockLen() <= |u|
    ensures u[i * c.BlockLen()..] == SortEach(c.qsort, o[i * c.BlockLen()..], c.BlockLen())
    decreases c.Blocks() - i
  {
    BlockLenExact(c);
    var n, b := c.BlockLen(), c.Blocks();
    Fits(n, b, i, 0);
    if i < b {
      BlockHead(u, n, b, i);
      BlockHead(o, n, b, i);
      BlockOnce(c, o, u, i);
      SortEachStep(c.qsort, o[i * n..], n);
      hide Blk, SortedBlocksOf, Settles, SortsBlocks, SortEach;
      SortedBlocksUnique(c, o, u, i + 1);
    } else {
      assert u[i * n..] == [] && o[i * n..] == [];
    }
  }

  /** Every complete run leaves exactly the file that sequential sorting and merging leaves,
      so any two complete runs leave the same file. */
  lemma ScheduleIndependence(c: Config, f0: seq<seq<Rec>>, s: State)
    requires Reachable(c, f0, s) && AllDone(s) && Settles(c.qsort)
    ensures s.file == seq(|f0|, j requires 0 <= j < |f0| => Sequential(c, f0[j]))
  {
    EndToEnd(c, f0, s);
    forall j | 0 <= j < |f0|
      ensures s.file[j] == Sequential(c, f0[j])
    {
      var o := f0[j];
      var u :| SortedBlocksOf(c, o, u) && s.file[j] == MergeAll(u, c.Blocks());
      SortedBlocksUnique(c, o, u, 0);
      assert u[0..] == u && o[0..] == o;
    }
  }

  /** Equal marks stand in x as in the sorted blocks of o, the last block first. */
  ghost predicate TiesByBlock(c: Config, o: seq<Rec>, x: seq<Rec>) {
    LastRunTies(x, SortEach(c.qsort, o, c.BlockLen()), c.BlockLen())
  }

  lemma TargetTies(c: Config, o: seq<Rec>, x: seq<Rec>)
    requires Valid(c) && Settles(c.qsort) && Target(c, o, x)
    ensures Sorted(x) && TiesByBlock(c, o, x)
  {
    TargetSorted(c, o, x);
    hide Target, Sorted, LastRunTies, Settles, SortsBlocks;
    var u :| SortedBlocksOf(c, o, u) && LastRunTies(x, u, c.BlockLen());
    hide SortedBlocksOf, SortEach;
    SortedBlocksUnique(c, o, u, 0);
    assert 0 * c.BlockLen() == 0;
    assert u[0..] == u && o[0..] == o;
  }

  lemma TiesDetermine(c: Config, o: seq<Rec>, x: seq<Rec>, y: seq<Rec>)
    requires Sorted(x) && Sorted(y) && TiesByBlock(c, o, x) && TiesByBlock(c, o, y)
    ensures x == y
  {
    hide Sorted, LastRunFirst, WithMark;
    assert SameTies(x, y);
    SortedUnique(x, y);
  }

  /** What a chunk becomes, without a word about merging: the one sequence that is sorted and
      in which equal marks stand as in the sorted blocks, the last block first. */
  lemma ChunkSpecified(c: Config, f0: seq<seq<Rec>>, s: State, j: nat, x: seq<Rec>)
    requires Reachable(c, f0, s) && AllDone(s) && Settles(c.qsort) && j < |f0|
    ensures |s.file| == |f0|
    ensures s.file[j] == x <==> (Sorted(x) && TiesByBlock(c, f0[j], x))
  {
    EndToEnd(c, f0, s);
    hide Sorted, Target, TiesByBlock, Settles, Tiled, Mappable, Reached, AllDone;
    TargetTies(c, f0[j], s.file[j]);
    if Sorted(x) && TiesByBlock(c, f0[j], x) {
      TiesDetermine(c, f0[j], x, s.file[j]);
    }
  }

  // --------------------------------------------------------- on the file itself

  /** The same in terms of the record file: after any complete run each mapped stretch of
      memsize records is sorted, is a permutation of itself, and the file is no longer or
      shorter than before; given that the last offset in bytes fits an int. */
  lemma FileSorted(c: Config, f: seq<Rec>, n: nat, s: State)
    requires Guarded(c) && |f| == n * c.memsize && (n > 0 ==> (n - 1) * c.memsize * RECORD < 0x8000_0000)
    requires Reached(c, Cut(f, c.memsize), s) && AllDone(s)
    ensures |Join(s.file)| == |f|
    ensures forall j | 0 <= j < n ::
      var w := Blk(Join(s.file), c.memsize, j);
      Sorted(w) && multiset(w) == multiset(Blk(f, c.memsize, j))
  {
    var f0, m := Cut(f, c.memsize), c.memsize;
    CutWindows(f, m, n);
    EndToEnd(c, f0, s);
    ReachableInv(c, f0, s);
    assert forall j | 0 <= j < |s.file| :: |s.file[j]| == m;
    hide Inv, Sorted, Target, Reachable, Cut, Blk;
    JoinWindows(s.file, m);
  }
}
