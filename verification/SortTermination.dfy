/** Every run of the sort_index threads ends: a measure that each step lowers, and a step
    for every state in which somebody is left. */
module SortTermination {
  import opened Base
  import opened Runs
  import opened Blocks
  import opened SortModel
  import opened SortInvariant
  import opened SortSteps
  import opened SortRounds
  import opened SortClaims
  import opened SortTheorems

  /** Steps per index of the claim loop, at most. */
  function PerClaim(c: Config): nat { c.memsize + 10 }

  /** Steps a participant can make before it must wait, at most. */
  function Local(c: Config, runs: nat, pc: Pc): int {
    var b, m, k := c.Blocks(), c.memsize, PerClaim(c);
    match pc
    case LoopTest => 2
    case InitMap => 1
    case Wait(_) => 0
    case MarkOwn => 6 * b + 5
    case SortOwn => 6 * b + 4
    case ScanTest(i) => 6 * (b - i) + 2
    case ScanLock(i) => 6 * (b - i) + 1
    case ScanRecheck(i) => 6 * (b - i)
    case ScanSet(i) => 6 * (b - i) - 1
    case ScanUnlock(i, _) => 6 * (b - i) - 2
    case ScanSort(i) => 6 * (b - i) - 3
    case InitMergeLock => 1
    case MergeTest => m + 6
    case Halve => 1
    case ClaimTest(i) => k * (runs + 3 - i)
    case ClaimLock(i) => k * (runs + 3 - i) - 1
    case ClaimCheck(i) => k * (runs + 3 - i) - 2
    case ClaimSet(i) => k * (runs + 3 - i) - 3
    case ClaimUnlock(i, _) => k * (runs + 3 - i) - 4
    case Copy(_, _, back) => if back.ClaimLoop? then k * (runs + 3 - back.i) - 5 else m + 5
    case Store(_, _, back, _, _, x, y) => if back.ClaimLoop? then k * (runs + 3 - back.i) - 6 - x - y else m + 4 - x - y
    case Advance => 3
    case Reset => 2
    case Done => 0
    case Wild => 0
  }

  function Weight(c: Config, runs: nat): Pc -> int { pc => Local(c, runs, pc) }

  function LocalMax(c: Config): nat { PerClaim(c) * (c.Blocks() + 3) + 6 * c.Blocks() + 5 }

  /** Barriers that have still to open when main is at pc, so many chunks are left, the
      mapped one included, and so many of its rounds have begun. */
  function BarriersAt(order: nat, chunks: int, rounds: nat, pc: Pc): int {
    match PhaseOf(pc)
    case Opening => 3 * order * chunks + 1
    case Sorting => 3 * order * chunks
    case Between =>
      if pc == Reset || pc == Wait(ChunkEnd) then 3 * order * chunks + 2
      else 3 * order * (chunks - 1) + 2 + 3 * (order - 1 - rounds)
    case Halving =>
      3 * order * (chunks - 1) + 1 + 3 * (order - 1 - (if pc == Halve then rounds else rounds - 1))
    case Claiming => 3 * order * (chunks - 1) + 3 * (order - rounds)
    case Ended => 0
    case Lost => 0
  }

  function BarriersLeft(c: Config, s: State): int
    requires s.pcs != []
  {
    BarriersAt(c.order, |s.file| - s.at, s.log.rounds, s.pcs[0])
  }

  function Measure(c: Config, s: State): int
    requires s.pcs != []
  {
    BarriersLeft(c, s) * (c.Threads() * LocalMax(c) + 1) + Sum(s.pcs, Weight(c, s.runs))
  }

  // ----------------------------------------------------------- bounds on the pcs

  lemma ClaimRange(k: int, runs: int, i: int, b: int)
    requires k >= 10 && 0 <= i <= runs + 2 && runs <= b
    ensures k <= k * (runs + 3 - i) <= k * (b + 3)
    ensures k * (runs + 1 - i) == k * (runs + 3 - i) - 2 * k
    ensures i <= runs ==> 3 * k <= k * (runs + 3 - i)
  {
    MulMonotone(1, runs + 3 - i, k);
    MulMonotone(runs + 3 - i, b + 3, k);
    if i <= runs {
      MulMonotone(3, runs + 3 - i, k);
    }
  }

  lemma LocalOfSorting(c: Config, f0: seq<seq<Rec>>, s: State, p: nat)
    requires SortingInv(c, f0, s) && p < |s.pcs|
    ensures 0 <= Local(c, s.runs, s.pcs[p]) <= LocalMax(c)
  {
    hide BlockClaim, SortingWindow, LockOwned, BusyFrom;
    assert SortingPc(c, s, p, s.pcs[p]);
    MulMonotone(0, c.Blocks() + 3, PerClaim(c));
  }

  lemma MaxCovers(c: Config)
    ensures LocalMax(c) >= c.memsize + 10
  {
    MulMonotone(1, c.Blocks() + 3, PerClaim(c));
  }

  /** The index a participant in the claim loop is at. */
  function LoopIndex(pc: Pc): nat {
    match pc
    case ClaimTest(i) => i
    case ClaimLock(i) => i
    case ClaimCheck(i) => i
    case ClaimSet(i) => i
    case ClaimUnlock(i, _) => i
    case Copy(_, _, back) => if back.ClaimLoop? then back.i else 0
    case Store(_, _, back, _, _, _, _) => if back.ClaimLoop? then back.i else 0
    case _ => 0
  }

  lemma LoopLocalRange(c: Config, runs: nat, pc: Pc)
    requires runs <= c.Blocks() && PhaseOf(pc) == Claiming && LoopIndex(pc) <= runs + 2
    requires pc.ClaimTest? || LoopIndex(pc) <= runs
    requires pc.Store? ==> pc.x + pc.y <= c.memsize
    ensures 0 <= Local(c, runs, pc) <= LocalMax(c)
  {
    ClaimRange(PerClaim(c), runs, LoopIndex(pc), c.Blocks());
  }

  lemma StoredBelow(c: Config, f0: seq<seq<Rec>>, s: State, p: nat)
    requires Valid(c) && ClaimingInv(c, f0, s) && p < |s.pcs| && s.pcs[p].Store?
    ensures s.pcs[p].x + s.pcs[p].y <= c.memsize
  {
    MergerPc(c, f0, s, p);
    var pc := s.pcs[p];
    PairInWindow(c, f0, s, pc.no);
    PairIsTwoBlocks(s.log.base, c.RunLen(s.runs), s.runs, pc.no);
    HalfWindow(c.memsize, s.runs, c.RunLen(s.runs));
  }

  lemma LocalOfClaiming(c: Config, f0: seq<seq<Rec>>, s: State, p: nat)
    requires Valid(c) && ClaimingInv(c, f0, s) && p < |s.pcs|
    ensures 0 <= Local(c, s.runs, s.pcs[p]) <= LocalMax(c)
  {
    assert ClaimingPc(c, s, p, s.pcs[p]);
    if s.pcs[p].Store? {
      StoredBelow(c, f0, s, p);
    }
    assert s.runs <= c.Blocks();
    hide Local, LocalMax, PairClaim, Pair, Blk, MergeSeq, EvenBusy;
    LoopLocalRange(c, s.runs, s.pcs[p]);
  }

  lemma HalfWindow(m: nat, runs: nat, n: nat)
    requires m == runs * n && runs >= 4
    ensures 2 * n <= m
  {
    MulMonotone(2, runs, n);
  }

  lemma LocalOfBetween(c: Config, f0: seq<seq<Rec>>, s: State, p: nat)
    requires Valid(c) && Common(c, f0, s) && BetweenInv(c, f0, s) && p < |s.pcs|
    ensures 0 <= Local(c, s.runs, s.pcs[p]) <= LocalMax(c)
  {
    MaxCovers(c);
    if RoundComing(c, f0, s) {
    } else if p == 0 {
      if s.pcs[0].Store? {
        assert ClosingPc(c, f0, s, s.pcs[0]);
        LastMergeStarts(c, s.file[s.at]);
      }
    }
  }

  lemma LocalRange(c: Config, f0: seq<seq<Rec>>, s: State, p: nat)
    requires Valid(c) && Inv(c, f0, s) && p < |s.pcs|
    ensures 0 <= Local(c, s.runs, s.pcs[p]) <= LocalMax(c)
  {
    assert PhaseOf(s.pcs[p]) == PhaseOf(s.pcs[0]);
    hide Target, OpeningInv, SortingInv, BetweenInv, HalvingInv, ClaimingInv, Common;
    MaxCovers(c);
    if PhaseOf(s.pcs[0]) == Sorting {
      LocalOfSorting(c, f0, s, p);
    } else if PhaseOf(s.pcs[0]) == Between {
      LocalOfBetween(c, f0, s, p);
    } else if PhaseOf(s.pcs[0]) == Claiming {
      LocalOfClaiming(c, f0, s, p);
    }
  }

  // ------------------------------------------------------------ steps go down

  /** A step of p lowers p's own count and changes no other participant's. */
  ghost predicate Lowers(c: Config, s: State, t: State, p: nat) {
    && p < |s.pcs| == |t.pcs| && t.pcs == s.pcs[p := t.pcs[p]]
    && Local(c, t.runs, t.pcs[p]) < Local(c, s.runs, s.pcs[p])
    && (forall q | 0 <= q < |s.pcs| :: Local(c, t.runs, s.pcs[q]) == Local(c, s.runs, s.pcs[q]))
    && BarriersLeft(c, t) == BarriersLeft(c, s)
  }

  lemma LowersInPhase(c: Config, s: State, t: State, p: nat)
    requires p < |s.pcs| == |t.pcs| && t.pcs == s.pcs[p := t.pcs[p]]
    requires PhaseOf(s.pcs[0]) == PhaseOf(t.pcs[0]) && PhaseOf(s.pcs[0]) in {Sorting, Claiming}
    requires t.runs == s.runs && t.at == s.at && |t.file| == |s.file| && t.log.rounds == s.log.rounds
    requires Local(c, s.runs, t.pcs[p]) < Local(c, s.runs, s.pcs[p])
    ensures Lowers(c, s, t, p)
  {
    hide Local, PhaseOf;
  }

  lemma ScanLocal(c: Config, f0: seq<seq<Rec>>, s: State, p: nat)
    requires SortingInv(c, f0, s) && CanMove(s, p) && PhaseOf(s.pcs[p]) == Sorting
    requires s.pcs[p] != SortOwn && !s.pcs[p].ScanSort?
    ensures var t := StepSort(c, s, p);
      Local(c, s.runs, t.pcs[p]) < Local(c, s.runs, s.pcs[p]) && PhaseOf(t.pcs[p]) == Sorting
  {
    assert SortingPc(c, s, p, s.pcs[p]);
    hide SortingInv, BusyFrom, SortingPc, PerClaim, Pow2;
  }

  lemma SortedLocal(c: Config, f0: seq<seq<Rec>>, s: State, p: nat, k: nat)
    requires Valid(c) && SortingInv(c, f0, s) && Sorts(s, p, k)
    ensures var t := StepSort(c, s, p);
      Local(c, s.runs, t.pcs[p]) < Local(c, s.runs, s.pcs[p]) && PhaseOf(t.pcs[p]) == Sorting
  {
    SortedEffect(c, f0, s, p, k);
    hide StepSort, SortingInv, PerClaim, SetBlk, Blk;
  }

  lemma SortingLocal(c: Config, f0: seq<seq<Rec>>, s: State, p: nat)
    requires Valid(c) && SortingInv(c, f0, s) && CanMove(s, p)
    ensures var t := StepSort(c, s, p);
      Local(c, s.runs, t.pcs[p]) < Local(c, s.runs, s.pcs[p]) && PhaseOf(t.pcs[p]) == Sorting
  {
    assert SortingPc(c, s, p, s.pcs[p]);
    hide SortingInv, StepSort, Local;
    if s.pcs[p] == SortOwn || s.pcs[p].ScanSort? {
      SortedLocal(c, f0, s, p, if s.pcs[p] == SortOwn then p else s.pcs[p].i);
    } else {
      ScanLocal(c, f0, s, p);
    }
  }

  lemma SortingFrame(c: Config, s: State, p: nat)
    requires p < |s.pcs|
    ensures var t := StepSort(c, s, p);
      && t.pcs == s.pcs[p := t.pcs[p]]
      && t.runs == s.runs && t.at == s.at && |t.file| == |s.file| && t.log.rounds == s.log.rounds
  {
    hide SetBlk, Blk;
  }

  lemma SortingLowers(c: Config, f0: seq<seq<Rec>>, s: State, p: nat)
    requires Valid(c) && SortingInv(c, f0, s) && CanMove(s, p) && PhaseOf(s.pcs[0]) == Sorting
    ensures Lowers(c, s, StepSort(c, s, p), p)
  {
    SortingLocal(c, f0, s, p);
    SortingFrame(c, s, p);
    hide StepSort, SortingInv, Lowers, Local, PhaseOf;
    LowersInPhase(c, s, StepSort(c, s, p), p);
  }

  /** The counts along one turn of the claim loop. */
  lemma ClaimCounts(c: Config, runs: nat, i: nat)
    requires i <= runs + 2
    ensures Local(c, runs, ClaimTest(i)) > 0 && Local(c, runs, Wait(RoundEnd)) == 0
    ensures Local(c, runs, ClaimTest(i)) > Local(c, runs, ClaimLock(i)) > Local(c, runs, ClaimCheck(i))
    ensures Local(c, runs, ClaimCheck(i)) > Local(c, runs, ClaimSet(i))
    ensures forall sav :: Local(c, runs, ClaimSet(i)) > Local(c, runs, ClaimUnlock(i, sav))
    ensures forall sav :: Local(c, runs, ClaimUnlock(i, sav)) > Local(c, runs, ClaimTest(i + 2))
    ensures forall sav ::
      Local(c, runs, ClaimUnlock(i, sav)) > Local(c, runs, Copy(sav, runs, ClaimLoop(i)))
  {
    ClaimRange(PerClaim(c), runs, i, runs);
  }

  lemma ClaimLocal(c: Config, f0: seq<seq<Rec>>, s: State, p: nat)
    requires Valid(c) && ClaimingInv(c, f0, s) && CanMove(s, p)
    requires OnlyLocks(s.pcs[p]) || s.pcs[p].ClaimSet?
    ensures var t := StepClaim(c, s, p);
      Local(c, s.runs, t.pcs[p]) < Local(c, s.runs, s.pcs[p]) && PhaseOf(t.pcs[p]) == Claiming
  {
    assert ClaimingPc(c, s, p, s.pcs[p]);
    assert s.runs <= c.Blocks();
    var pc := s.pcs[p];
    assert pc.i <= s.runs + 2 && (pc.i <= s.runs || pc.ClaimTest?);
    hide ClaimingInv, ClaimingPc, EvenBusy;
    ClaimCounts(c, s.runs, pc.i);
    hide Local, Busy, SetBusy;
  }

  lemma ClaimFrame(c: Config, s: State, p: nat)
    requires p < |s.pcs|
    ensures var t := StepClaim(c, s, p);
      && t.pcs == s.pcs[p := t.pcs[p]]
      && t.runs == s.runs && t.at == s.at && |t.file| == |s.file| && t.log.rounds == s.log.rounds
  {
  }

  lemma ClaimLowers(c: Config, f0: seq<seq<Rec>>, s: State, p: nat)
    requires Valid(c) && ClaimingInv(c, f0, s) && CanMove(s, p) && PhaseOf(s.pcs[0]) == Claiming
    requires OnlyLocks(s.pcs[p]) || s.pcs[p].ClaimSet?
    ensures Lowers(c, s, StepClaim(c, s, p), p)
  {
    ClaimLocal(c, f0, s, p);
    ClaimFrame(c, s, p);
    hide StepClaim, ClaimingInv, Lowers, Local, PhaseOf;
    LowersInPhase(c, s, StepClaim(c, s, p), p);
  }

  lemma CopyLowers(c: Config, f0: seq<seq<Rec>>, s: State, p: nat)
    requires Valid(c) && ClaimingInv(c, f0, s) && PhaseOf(s.pcs[0]) == Claiming && p < |s.pcs| && s.pcs[p].Copy?
    ensures Lowers(c, s, StepMerge(c, s, p), p)
  {
    MergerPc(c, f0, s, p);
    CopyEffect(c, f0, s, p, s.pcs[p].back.i);
    hide StepMerge, ClaimingInv, Blk, ClaimingPc;
    LowersInPhase(c, s, StepMerge(c, s, p), p);
  }

  lemma StoreLowers(c: Config, f0: seq<seq<Rec>>, s: State, p: nat)
    requires Valid(c) && ClaimingInv(c, f0, s) && PhaseOf(s.pcs[0]) == Claiming && p < |s.pcs|
    requires MoreToStore(s.pcs[p])
    ensures Lowers(c, s, StepMerge(c, s, p), p)
  {
    MergerPc(c, f0, s, p);
    StoreEffect(c, s, p);
    hide StepMerge, ClaimingInv, Poke, ClaimingPc;
    LowersInPhase(c, s, StepMerge(c, s, p), p);
  }

  lemma ReturnLowers(c: Config, f0: seq<seq<Rec>>, s: State, p: nat)
    requires Valid(c) && ClaimingInv(c, f0, s) && PhaseOf(s.pcs[0]) == Claiming && p < |s.pcs|
    requires Underway(s.pcs[p]) && !MoreToStore(s.pcs[p])
    ensures Lowers(c, s, StepMerge(c, s, p), p)
  {
    MergerPc(c, f0, s, p);
    var pc := s.pcs[p];
    ReturnEffect(c, f0, s, p, pc.no);
    PairInWindow(c, f0, s, pc.no);
    assert |pc.left| + |pc.right| <= c.memsize by {
      PairIsTwoBlocks(s.log.base, c.RunLen(s.runs), s.runs, pc.no);
      HalfWindow(c.memsize, s.runs, c.RunLen(s.runs));
    }
    assert s.runs <= c.Blocks() && pc.no <= s.runs && pc.back == ClaimLoop(pc.no);
    hide StepMerge, ClaimingInv, ClaimingPc, Local;
    ReturnCounts(c, s.runs, pc);
    LowersInPhase(c, s, StepMerge(c, s, p), p);
  }

  lemma ReturnCounts(c: Config, runs: nat, pc: Pc)
    requires pc.Store? && pc.back.ClaimLoop? && pc.back.i <= runs && pc.x + pc.y <= c.memsize
    ensures Local(c, runs, ClaimTest(pc.back.i + 2)) < Local(c, runs, pc)
  {
    ClaimRange(PerClaim(c), runs, pc.back.i, runs);
  }

  lemma OpeningLowers(c: Config, f0: seq<seq<Rec>>, s: State, p: nat)
    requires Valid(c) && OpeningInv(c, f0, s) && PhaseOf(s.pcs[0]) == Opening && CanMove(s, p)
    ensures Lowers(c, s, StepLoop(c, s, p), p)
  {
    assert OpeningPc(s, p, s.pcs[p]);
    hide OpeningPc, MapReady, FreshMap;
    assert PhaseOf(StepLoop(c, s, p).pcs[0]) == Opening;
  }

  lemma HalvingLowers(c: Config, f0: seq<seq<Rec>>, s: State, p: nat)
    requires Valid(c) && HalvingInv(c, f0, s) && CanMove(s, p)
    ensures Lowers(c, s, StepHalve(c, s, p), p)
  {
    hide RoundsLeft, RoundReady, MapShape, ClearMap;
    assert s.pcs[p] == Halve;
    assert forall q | 0 <= q < |s.pcs| :: s.pcs[q] == Halve || s.pcs[q] == Wait(RoundGo);
  }

  lemma TestLowers(c: Config, f0: seq<seq<Rec>>, s: State, p: nat)
    requires Valid(c) && BetweenInv(c, f0, s) && p < |s.pcs| && s.pcs[p] == MergeTest
    ensures Lowers(c, s, StepChunk(c, s, p), p)
  {
    hide Target, MergeAll, NextGuard, MapShape, MergeSeq, RoundsLeft, Untouched, RunsAfter;
    assert forall q | 0 <= q < |s.pcs| :: Local(c, 0, s.pcs[q]) == Local(c, s.runs, s.pcs[q]);
  }

  /** In the closing of a chunk nobody's count depends on BLOCKS. */
  lemma ClosingCounts(c: Config, f0: seq<seq<Rec>>, s: State, r: nat)
    requires BetweenInv(c, f0, s)
    ensures forall q | 0 <= q < |s.pcs| :: Local(c, r, s.pcs[q]) == Local(c, s.runs, s.pcs[q])
  {
    hide Target, MergeAll, NextGuard, MapShape, MergeSeq, RoundsLeft, Untouched, RunsAfter, PerClaim;
  }

  /** A step of main's last merge. */
  ghost predicate LastMergeStep(c: Config, s: State, t: State) {
    && 0 < |s.pcs| == |t.pcs|
    && Local(c, s.runs, t.pcs[0]) < Local(c, s.runs, s.pcs[0])
    && PhaseOf(t.pcs[0]) == Between && t.pcs[0] != Reset && !t.pcs[0].Wait?
    && t.pcs == s.pcs[0 := t.pcs[0]]
    && t.runs == s.runs && t.at == s.at && |t.file| == |s.file| && t.log.rounds == s.log.rounds
  }

  lemma LastCopyLocal(c: Config, f0: seq<seq<Rec>>, s: State)
    requires Valid(c) && Common(c, f0, s) && s.pcs != [] && ClosingPc(c, f0, s, s.pcs[0]) && s.pcs[0].Copy?
    ensures LastMergeStep(c, s, StepMerge(c, s, 0))
  {
    LastMergeStarts(c, s.file[s.at]);
    assert |s.file[s.at]| == c.memsize;
    hide Target, MergeAll, NextGuard, Common, Blk, MergeSeq, RunsAfter, PerClaim, RoundsLeft;
  }

  lemma LastStoreLocal(c: Config, f0: seq<seq<Rec>>, s: State)
    requires Valid(c) && Common(c, f0, s) && s.pcs != [] && ClosingPc(c, f0, s, s.pcs[0]) && s.pcs[0].Store?
    ensures LastMergeStep(c, s, StepMerge(c, s, 0))
  {
    LastMergeStarts(c, s.file[s.at]);
    var pc := s.pcs[0];
    assert |pc.left| + |pc.right| == c.memsize && Underway(pc) && pc.back == LastMerge && s.at < |s.file|;
    hide ClosingPc, Target, MergeAll, Common, Blk, MergeSeq, PerClaim, Poke;
    if MoreToStore(pc) {
      StoreEffect(c, s, 0);
      hide StepMerge;
    }
  }

  lemma LastMergeLowers(c: Config, f0: seq<seq<Rec>>, s: State)
    requires Valid(c) && Common(c, f0, s) && BetweenInv(c, f0, s) && (s.pcs[0].Copy? || s.pcs[0].Store?)
    ensures Lowers(c, s, StepMerge(c, s, 0), 0)
  {
    ClosingOnly(c, f0, s);
    assert PhaseOf(s.pcs[0]) == Between by {
      hide StepMerge, Common, BetweenInv;
    }
    hide BetweenInv, ClosingPc, StepMerge, Local;
    if s.pcs[0].Copy? {
      LastCopyLocal(c, f0, s);
    } else {
      LastStoreLocal(c, f0, s);
    }
    ClosingCounts(c, f0, s, s.runs);
  }

  lemma MainLowers(c: Config, f0: seq<seq<Rec>>, s: State)
    requires Valid(c) && BetweenInv(c, f0, s) && s.pcs != [] && (s.pcs[0] == Advance || s.pcs[0] == Reset)
    requires s.done == s.at && MapsWell(c, s, Move(0))
    ensures Lowers(c, s, StepChunk(c, s, 0), 0)
  {
    ClosingOnly(c, f0, s);
    ClosingCounts(c, f0, s, 2 * c.Blocks());
    assert s.pcs[0] == Advance ==> s.log.rounds == c.order - 1 && s.at < |s.file|;
    hide BetweenInv, RoundComing, ClosingPc, PerClaim, MappedWindow;
  }

  lemma MoveLowers(c: Config, f0: seq<seq<Rec>>, s: State, p: nat)
    requires Valid(c) && Inv(c, f0, s) && CanMove(s, p) && MapsWell(c, s, Move(p))
    ensures Lowers(c, s, StepOf(c, s, p), p)
  {
    assert PhaseOf(s.pcs[p]) == PhaseOf(s.pcs[0]) && s.done == s.at;
    var ph := PhaseOf(s.pcs[0]);
    hide MapsWell, Lowers, StepLoop, StepSort, StepChunk, StepHalve, StepMerge, StepClaim, Common,
         OpeningInv, SortingInv, BetweenInv, HalvingInv, ClaimingInv;
    if ph == Opening {
      OpeningLowers(c, f0, s, p);
    } else if ph == Sorting {
      SortingLowers(c, f0, s, p);
    } else if ph == Halving {
      HalvingLowers(c, f0, s, p);
    } else if ph == Between {
      if s.pcs[p] == MergeTest {
        TestLowers(c, f0, s, p);
      } else {
        MainOnly(c, f0, s, p);
        if s.pcs[p] == Advance || s.pcs[p] == Reset {
          MainLowers(c, f0, s);
        } else {
          LastMergeLowers(c, f0, s);
        }
      }
    } else {
      ClaimingKinds(c, f0, s, p);
      if s.pcs[p].Copy? {
        CopyLowers(c, f0, s, p);
      } else if s.pcs[p].Store? {
        if MoreToStore(s.pcs[p]) {
          StoreLowers(c, f0, s, p);
        } else {
          ReturnLowers(c, f0, s, p);
        }
      } else {
        ClaimLowers(c, f0, s, p);
      }
    }
  }

  // ------------------------------------------------------------------ barriers

  lemma BarrierOpens(order: nat, chunks: int, rounds: nat, at: Meeting)
    requires at == Exit ==> chunks == 0
    requires at == BlocksSorted ==> rounds == 0
    ensures BarriersAt(order, chunks, rounds, AfterWait(at)) == BarriersAt(order, chunks, rounds, Wait(at)) - 1
  {
    assert 3 * order * (chunks - 1) == 3 * order * chunks - 3 * order;
  }

  lemma OpenLowers(c: Config, f0: seq<seq<Rec>>, s: State)
    requires Valid(c) && Inv(c, f0, s) && Enabled(s, Open)
    ensures BarriersLeft(c, Next(c, s, Open)) == BarriersLeft(c, s) - 1
    ensures Next(c, s, Open).runs == s.runs
  {
    var t, at := Next(c, s, Open), s.pcs[0].at;
    assert s.pcs[0] == Wait(at) && t.pcs[0] == AfterWait(at);
    assert t == s.(pcs := t.pcs);
    hide Next, Enabled, BarriersAt;
    WaitFacts(c, f0, s, at);
    BarrierOpens(c.order, |s.file| - s.at, s.log.rounds, at);
  }

  /** What the counts need to know of a state in which main waits. */
  lemma WaitFacts(c: Config, f0: seq<seq<Rec>>, s: State, at: Meeting)
    requires Valid(c) && Inv(c, f0, s) && s.pcs != [] && s.pcs[0] == Wait(at)
    ensures c.order >= 4
    ensures at == Exit ==> s.at == |s.file|
    ensures at == BlocksSorted ==> s.log.rounds == 0
  {
    RunsFacts(c, 0);
    hide Target, MergeAll, SortingWindow, LockOwned, BlockClaim, Common, InPhase, MapReady,
         BetweenInv, HalvingInv, ClaimingInv, SortingPc;
    if at == Exit {
      assert OpeningPc(s, 0, s.pcs[0]);
    }
  }

  lemma BarriersNonNegative(c: Config, f0: seq<seq<Rec>>, s: State)
    requires Valid(c) && Inv(c, f0, s)
    ensures BarriersLeft(c, s) >= 0
  {
    hide Target, MergeAll, SortingWindow, LockOwned, PairClaim, BlockClaim, InPhase, MapReady, SortingPc, ClaimingPc;
    var d, k := 3 * c.order, |s.file| - s.at;
    if k >= 1 {
      MulMonotone(1, k, d);
      MulMonotone(0, k - 1, d);
    }
  }

  lemma MoveLowersMeasure(c: Config, f0: seq<seq<Rec>>, s: State, p: nat)
    requires Valid(c) && Inv(c, f0, s) && CanMove(s, p) && MapsWell(c, s, Move(p))
    ensures Measure(c, StepOf(c, s, p)) < Measure(c, s)
  {
    MoveLowers(c, f0, s, p);
    var t := StepOf(c, s, p);
    assert s.pcs != [] && t.pcs != [];
    hide Inv, StepOf, BarriersAt, Local, MapsWell;
    SumUpdate(s.pcs, p, t.pcs[p], Weight(c, t.runs));
    SumSame(s.pcs, Weight(c, t.runs), Weight(c, s.runs));
  }

  lemma FewerBarriers(b: int, w: int, x: int, y: int)
    requires 0 <= x < w && 0 <= y
    ensures (b - 1) * w + x < b * w + y
  {
    assert b * w == (b - 1) * w + w;
  }

  lemma OpenLowersMeasure(c: Config, f0: seq<seq<Rec>>, s: State)
    requires Valid(c) && Inv(c, f0, s) && Enabled(s, Open) && Inv(c, f0, Next(c, s, Open))
    ensures Measure(c, Next(c, s, Open)) < Measure(c, s)
  {
    hide Inv, Next, Enabled, BarriersAt, LocalMax, Weight, Sum, BarriersLeft;
    OpenLowers(c, f0, s);
    MeasureBounds(c, f0, s);
    MeasureBounds(c, f0, Next(c, s, Open));
    var t, w := Next(c, s, Open), c.Threads() * LocalMax(c) + 1;
    FewerBarriers(BarriersLeft(c, s), w, Sum(t.pcs, Weight(c, t.runs)), Sum(s.pcs, Weight(c, s.runs)));
  }

  /** Every step lowers the measure, and the measure is never negative. */
  lemma StepLowersMeasure(c: Config, f0: seq<seq<Rec>>, s: State, a: Act)
    requires Valid(c) && Inv(c, f0, s) && Enabled(s, a) && StepSafe(c, s, a)
    ensures 0 <= Measure(c, Next(c, s, a)) < Measure(c, s)
  {
    StepKeepsInv(c, f0, s, a);
    hide Inv, StepOf, Measure, MapsWell, PromptAct, VisitOk;
    MeasureBounds(c, f0, Next(c, s, a));
    match a
    case Move(p) => MoveLowersMeasure(c, f0, s, p);
    case Open => OpenLowersMeasure(c, f0, s);
  }

  lemma MeasureBounds(c: Config, f0: seq<seq<Rec>>, s: State)
    requires Valid(c) && Inv(c, f0, s)
    ensures s.pcs != [] && 0 <= Sum(s.pcs, Weight(c, s.runs)) <= c.Threads() * LocalMax(c)
    ensures Measure(c, s) >= 0
  {
    BarriersNonNegative(c, f0, s);
    assert |s.pcs| == c.Threads();
    hide Inv, BarriersAt, LocalMax, Local, Sum;
    forall p | 0 <= p < |s.pcs|
      ensures 0 <= Weight(c, s.runs)(s.pcs[p]) <= LocalMax(c)
    {
      LocalRange(c, f0, s, p);
    }
    SumWithin(s.pcs, Weight(c, s.runs), LocalMax(c), c.Threads());
    NotNegative(BarriersLeft(c, s), c.Threads() * LocalMax(c) + 1, Sum(s.pcs, Weight(c, s.runs)));
  }

  lemma SumWithin(s: seq<Pc>, f: Pc -> int, hi: int, n: nat)
    requires |s| == n && forall p | 0 <= p < |s| :: 0 <= f(s[p]) <= hi
    ensures 0 <= Sum(s, f) <= n * hi
  {
    SumBounds(s, f, 0, hi);
    assert hi * n == n * hi;
  }

  lemma NotNegative(b: int, w: int, x: int)
    requires b >= 0 && w >= 0 && x >= 0
    ensures b * w + x >= 0
  {
    MulMonotone(0, b, w);
  }

  // ------------------------------------------------------------------ progress

  /** As long as somebody is left, some step is possible, and one that is prompt. */
  lemma SomebodyMoves(c: Config, f0: seq<seq<Rec>>, s: State)
    requires Valid(c) && Inv(c, f0, s)
    ensures AllDone(s) || exists a :: Enabled(s, a) && PromptAct(s, a)
  {
    if forall p | 0 <= p < |s.pcs| :: s.pcs[p].Wait? {
      assert Enabled(s, Open) && PromptAct(s, Open);
    } else {
      var p :| 0 <= p < |s.pcs| && !s.pcs[p].Wait?;
      assert PhaseOf(s.pcs[p]) == PhaseOf(s.pcs[0]);
      if PhaseOf(s.pcs[0]) == Ended {
        assert forall q | 0 <= q < |s.pcs| :: PhaseOf(s.pcs[q]) == Ended;
      } else if s.pcs[p] == Reset && exists q :: 0 < q < |s.pcs| && s.pcs[q] == MergeTest {
        var q :| 0 < q < |s.pcs| && s.pcs[q] == MergeTest;
        assert Enabled(s, Move(q)) && PromptAct(s, Move(q));
      } else if s.pcs[p].ScanLock? && s.sortLock.Some? {
        LockHolderMoves(s, s.sortLock.value, HoldsSortLock);
      } else if s.pcs[p].ClaimLock? && s.mergeLock.Some? {
        LockHolderMoves(s, s.mergeLock.value, HoldsMergeLock);
      } else {
        hide PhaseInv, Common;
        assert PhaseOf(s.pcs[0]) != Lost by { LostNever(c, f0, s); }
        assert Enabled(s, Move(p)) && PromptAct(s, Move(p));
      }
    }
  }

  lemma LockHolderMoves(s: State, h: nat, holds: Pc -> bool)
    requires h < |s.pcs| && holds(s.pcs[h]) && (holds == HoldsSortLock || holds == HoldsMergeLock)
    ensures Enabled(s, Move(h)) && PromptAct(s, Move(h))
  {
  }

  /** No schedule is longer than the measure of its first state. */
  lemma {:induction false} SchedulesAreBounded(c: Config, f0: seq<seq<Rec>>, s: State, acts: seq<Act>)
    requires Guarded(c) && Mappable(c, |f0|) && Inv(c, f0, s) && Legal(c, s, acts) && Prompt(c, s, acts)
    ensures |acts| <= Measure(c, s)
    decreases |acts|
  {
    hide Inv, Next, Enabled, PromptAct, Measure, Mappable, StepSafe;
    MeasureBounds(c, f0, s);
    if acts != [] {
      PromptIsSafe(c, f0, s, acts[0]);
      StepLowersMeasure(c, f0, s, acts[0]);
      StepKeepsInv(c, f0, s, acts[0]);
      SchedulesAreBounded(c, f0, Next(c, s, acts[0]), acts[1..]);
    }
  }

  lemma StuckIsDone(c: Config, f0: seq<seq<Rec>>, s: State)
    requires Valid(c) && Inv(c, f0, s)
    ensures (forall a :: !(Enabled(s, a) && PromptAct(s, a))) <==> AllDone(s)
  {
    SomebodyMoves(c, f0, s);
    MeasureBounds(c, f0, s);
    hide Inv;
    if AllDone(s) {
      forall a
        ensures !Enabled(s, a)
      {
        assert s.pcs[0] == Done;
      }
    }
  }

  /** Total correctness. From the start, no schedule is longer than a fixed bound, and one
      that cannot be continued has brought all threads to their end, where EndToEnd applies. */
  lemma EveryRunEnds(c: Config, f0: seq<seq<Rec>>, acts: seq<Act>)
    requires Guarded(c) && Tiled(c, f0) && Mappable(c, |f0|)
    requires Legal(c, Init(c, f0), acts) && Prompt(c, Init(c, f0), acts)
    ensures |acts| <= Measure(c, Init(c, f0))
    ensures var s := Run(c, Init(c, f0), acts);
      (forall a :: !(Enabled(s, a) && PromptAct(s, a))) <==> AllDone(s)
  {
    hide Inv, Measure, Enabled, PromptAct, AllDone;
    InitInv(c, f0);
    SchedulesAreBounded(c, f0, Init(c, f0), acts);
    RunKeepsInv(c, f0, Init(c, f0), acts);
    StuckIsDone(c, f0, Run(c, Init(c, f0), acts));
  }

  ghost function MeasureNat(c: Config, f0: seq<seq<Rec>>, s: State): (m: nat)
    requires Valid(c) && Inv(c, f0, s)
    ensures s.pcs != [] && m == Measure(c, s)
  {
    MeasureBounds(c, f0, s);
    Measure(c, s)
  }

  lemma RunStep(c: Config, s: State, a: Act, rest: seq<Act>)
    requires Enabled(s, a) && PromptAct(s, a)
    requires Legal(c, Next(c, s, a), rest) && Prompt(c, Next(c, s, a), rest)
    ensures Legal(c, s, [a] + rest) && Prompt(c, s, [a] + rest)
    ensures Run(c, s, [a] + rest) == Run(c, Next(c, s, a), rest)
  {
    hide Enabled, PromptAct, Next;
    assert ([a] + rest)[1..] == rest;
  }

  /** From wherever a run has got to, it can be completed. */
  lemma {:induction false} Completion(c: Config, f0: seq<seq<Rec>>, s: State) returns (acts: seq<Act>)
    requires Guarded(c) && Mappable(c, |f0|) && Inv(c, f0, s)
    ensures Legal(c, s, acts) && Prompt(c, s, acts) && AllDone(Run(c, s, acts))
    decreases MeasureNat(c, f0, s)
  {
    hide Inv, Next, Enabled, PromptAct, AllDone, Mappable, StepSafe;
    if AllDone(s) {
      acts := [];
    } else {
      SomebodyMoves(c, f0, s);
      var a :| Enabled(s, a) && PromptAct(s, a);
      PromptIsSafe(c, f0, s, a);
      StepKeepsInv(c, f0, s, a);
      StepLowersMeasure(c, f0, s, a);
      var rest := Completion(c, f0, Next(c, s, a));
      RunStep(c, s, a, rest);
      acts := [a] + rest;
    }
  }

  /** Complete runs exist for every valid configuration and file, so EndToEnd and
      ScheduleIndependence speak of something. */
  lemma CompleteRunExists(c: Config, f0: seq<seq<Rec>>)
    requires Guarded(c) && Tiled(c, f0) && Mappable(c, |f0|)
    ensures exists s :: Reachable(c, f0, s) && AllDone(s)
  {
    hide Inv, AllDone, Next, Enabled, PromptAct;
    InitInv(c, f0);
    var acts := Completion(c, f0, Init(c, f0));
    assert Reached(c, f0, Run(c, Init(c, f0), acts));
  }

  // ------------------------------------------------ the race is a real one

  /** Main is on its way from the last round of the last chunk to the restore of BLOCKS. */
  ghost predicate LastClosing(c: Config, f0: seq<seq<Rec>>, s: State)
    requires s.pcs != []
  {
    && s.at + 1 == |s.file| && PhaseOf(s.pcs[0]) == Between && !RoundComing(c, f0, s)
    && s.pcs[0] != Reset && !s.pcs[0].Wait?
  }

  /** Main still has a chunk to close, and while it closes the last one worker 1 has not left
      the test of the last round. */
  ghost predicate BeforeRace(c: Config, f0: seq<seq<Rec>>, s: State) {
    && Inv(c, f0, s) && s.at < |s.file| && |s.pcs| > 1
    && (LastClosing(c, f0, s) ==> s.pcs[1] == MergeTest)
  }

  /** After the last chunk main can restore BLOCKS while worker 1 is at the test. */
  predicate Race(s: State) {
    |s.pcs| > 1 && s.pcs[0] == Reset && s.pcs[1] == MergeTest && s.at == s.done == |s.file|
  }

  /** A step that does not let worker 1 leave the last test. */
  lemma RaceStep(c: Config, f0: seq<seq<Rec>>, s: State) returns (a: Act)
    requires Guarded(c) && Mappable(c, |f0|) && BeforeRace(c, f0, s)
    ensures Enabled(s, a) && StepSafe(c, s, a)
    ensures Race(Next(c, s, a)) || BeforeRace(c, f0, Next(c, s, a))
  {
    if LastClosing(c, f0, s) {
      a := Move(0);
      assert CanMove(s, 0);
      PromptIsSafe(c, f0, s, a);
      StepKeepsInv(c, f0, s, a);
      ClosingStep(c, f0, s);
    } else {
      assert PhaseOf(s.pcs[0]) == Ended ==> s.at == |s.file|;
      SomebodyMoves(c, f0, s);
      a :| Enabled(s, a) && PromptAct(s, a);
      PromptIsSafe(c, f0, s, a);
      StepKeepsInv(c, f0, s, a);
      OtherStep(c, f0, s, a);
    }
  }

  lemma ClosingStep(c: Config, f0: seq<seq<Rec>>, s: State)
    requires Valid(c) && BeforeRace(c, f0, s) && LastClosing(c, f0, s)
    requires CanMove(s, 0) && Inv(c, f0, Next(c, s, Move(0)))
    ensures Race(Next(c, s, Move(0))) || BeforeRace(c, f0, Next(c, s, Move(0)))
  {
    assert s.done == s.at;
    hide Inv, Target, MergeAll, RoundComing, Poke, Blk, MergeSeq, MappedWindow;
    assert s.pcs[0] == MergeTest ==> s.runs == 4 by {
      if s.pcs[0] == MergeTest {
        ClosingRuns(c, f0, s);
      }
    }
    assert !s.pcs[0].Wait? && !s.pcs[0].Halve?;
  }

  lemma ClosingRuns(c: Config, f0: seq<seq<Rec>>, s: State)
    requires Inv(c, f0, s) && PhaseOf(s.pcs[0]) == Between && !RoundComing(c, f0, s) && s.pcs[0] == MergeTest
    ensures s.runs == 4
  {
    hide Target, MergeAll;
  }

  /** What a step of p leaves alone: the other pcs, and the mapping unless main maps the next
      chunk; a participant other than main can change BLOCKS to no less than main does, and
      nobody leaves but through the barrier. */
  predicate Framed(c: Config, s: State, t: State, p: nat) {
    && p < |s.pcs| == |t.pcs| && t.pcs == s.pcs[p := t.pcs[p]] && t.pcs[p] != Done
    && |t.file| == |s.file| && t.done >= s.done
    && (s.pcs[p] != Advance ==> t.at == s.at && t.done == s.done)
    && (p != 0 ==> t.runs == s.runs || t.runs == 2 * c.Blocks())
  }

  lemma LoopFramed(c: Config, s: State, p: nat)
    requires p < |s.pcs| && s.pcs[p] != Done
    ensures Framed(c, s, StepLoop(c, s, p), p)
  {
    hide FreshMap;
  }

  lemma SortFramed(c: Config, s: State, p: nat)
    requires p < |s.pcs| && s.pcs[p] != Done
    ensures Framed(c, s, StepSort(c, s, p), p)
  {
    hide SetBlk, Blk;
  }

  lemma ChunkFramed(c: Config, s: State, p: nat)
    requires p < |s.pcs| && s.pcs[p] != Done
    ensures Framed(c, s, StepChunk(c, s, p), p)
  {
    hide MappedWindow;
  }

  lemma HalveFramed(c: Config, s: State, p: nat)
    requires p < |s.pcs| && s.pcs[p] != Done
    ensures Framed(c, s, StepHalve(c, s, p), p)
  {
    hide ClearMap;
  }

  lemma MergeFramed(c: Config, s: State, p: nat)
    requires p < |s.pcs| && s.pcs[p] != Done
    ensures Framed(c, s, StepMerge(c, s, p), p)
  {
    hide Poke, Blk;
  }

  lemma ClaimFramed(c: Config, s: State, p: nat)
    requires p < |s.pcs| && s.pcs[p] != Done
    ensures Framed(c, s, StepClaim(c, s, p), p)
  {
  }

  lemma StepFramed(c: Config, s: State, p: nat)
    requires CanMove(s, p)
    ensures Framed(c, s, StepOf(c, s, p), p)
  {
    LoopFramed(c, s, p);
    SortFramed(c, s, p);
    ChunkFramed(c, s, p);
    HalveFramed(c, s, p);
    MergeFramed(c, s, p);
    ClaimFramed(c, s, p);
    hide Framed, StepLoop, StepSort, StepChunk, StepHalve, StepMerge, StepClaim;
  }

  lemma AtMovesInAdvance(c: Config, s: State, a: Act)
    requires Enabled(s, a) && !(a.Move? && s.pcs[a.p] == Advance)
    ensures Next(c, s, a).at == s.at && Next(c, s, a).done == s.done && |Next(c, s, a).file| == |s.file|
  {
    hide StepOf;
    match a
    case Move(p) => StepFramed(c, s, p);
    case Open =>
  }

  /** Outside the closing of a chunk a step either stays in its phase or opens the barrier. */
  lemma PhaseAfterMove(c: Config, f0: seq<seq<Rec>>, s: State, t: State, p: nat)
    requires Valid(c) && Inv(c, f0, s) && Inv(c, f0, t) && p < |s.pcs| == |t.pcs|
    requires t.pcs == s.pcs[p := t.pcs[p]]
    ensures PhaseOf(t.pcs[0]) == PhaseOf(s.pcs[0])
  {
    assert |s.pcs| > 1;
    hide PhaseInv, Common, PhaseOf;
    if p == 0 {
      assert PhaseOf(t.pcs[1]) == PhaseOf(t.pcs[0]) && PhaseOf(s.pcs[1]) == PhaseOf(s.pcs[0]);
    }
  }

  /** A worker or main that finds a round to come goes on to the barrier. */
  lemma ComingMove(c: Config, f0: seq<seq<Rec>>, s: State, p: nat)
    requires RoundComing(c, f0, s) && CanMove(s, p) && Inv(c, f0, StepOf(c, s, p))
    ensures StepOf(c, s, p) == Goto(s, p, Wait(RoundOpen)) && RoundComing(c, f0, StepOf(c, s, p))
  {
    hide Inv, Target, MergeAll;
    assert s.pcs[p] == MergeTest;
  }

  /** In the closing of a chunk that is not the last one, or after main's restore of BLOCKS. */
  lemma ClosingMove(c: Config, f0: seq<seq<Rec>>, s: State, p: nat)
    requires Valid(c) && BeforeRace(c, f0, s) && !LastClosing(c, f0, s)
    requires PhaseOf(s.pcs[0]) == Between && !RoundComing(c, f0, s)
    requires CanMove(s, p) && PromptAct(s, Move(p)) && MapsWell(c, s, Move(p)) && Inv(c, f0, StepOf(c, s, p))
    ensures BeforeRace(c, f0, StepOf(c, s, p))
  {
    var t := StepOf(c, s, p);
    assert s.done == s.at && p < |t.pcs|;
    MoveFrame(c, f0, s, p);
    assert PhaseOf(s.pcs[p]) == Between;
    if s.pcs[p] == Advance {
      MainOnly(c, f0, s, p);
      hide Inv, RoundComing, MappedWindow;
    } else {
      hide Inv, RoundComing, MapsWell;
      AtMovesInAdvance(c, s, Move(p));
      hide StepMerge;
    }
  }

  lemma MoveFrame(c: Config, f0: seq<seq<Rec>>, s: State, p: nat)
    requires Valid(c) && Inv(c, f0, s) && CanMove(s, p) && MapsWell(c, s, Move(p))
    ensures |StepOf(c, s, p).pcs| == |s.pcs| && StepOf(c, s, p).pcs == s.pcs[p := StepOf(c, s, p).pcs[p]]
  {
    MoveLowers(c, f0, s, p);
    hide Inv, StepOf, Local, MapsWell;
  }

  lemma OtherMove(c: Config, f0: seq<seq<Rec>>, s: State, p: nat)
    requires Valid(c) && BeforeRace(c, f0, s) && !LastClosing(c, f0, s)
    requires CanMove(s, p) && PromptAct(s, Move(p)) && MapsWell(c, s, Move(p)) && Inv(c, f0, StepOf(c, s, p))
    ensures BeforeRace(c, f0, StepOf(c, s, p))
  {
    var t := StepOf(c, s, p);
    if PhaseOf(s.pcs[0]) == Between {
      if RoundComing(c, f0, s) {
        hide Inv, StepOf, RoundComing, MapsWell;
        ComingMove(c, f0, s, p);
      } else {
        hide BeforeRace, LastClosing, Inv, StepOf, RoundComing, MapsWell;
        ClosingMove(c, f0, s, p);
      }
    } else {
      MoveFrame(c, f0, s, p);
      PhaseAfterMove(c, f0, s, t, p);
      assert PhaseOf(s.pcs[p]) == PhaseOf(s.pcs[0]);
      hide Inv, StepOf, RoundComing, MapsWell;
      AtMovesInAdvance(c, s, Move(p));
    }
  }

  lemma OtherOpen(c: Config, f0: seq<seq<Rec>>, s: State)
    requires Valid(c) && BeforeRace(c, f0, s) && Enabled(s, Open) && Inv(c, f0, Next(c, s, Open))
    ensures BeforeRace(c, f0, Next(c, s, Open))
  {
    var t := Next(c, s, Open);
    assert t.pcs[0] == AfterWait(s.pcs[0].at) && t.pcs[1] == AfterWait(s.pcs[1].at);
    assert PhaseOf(t.pcs[1]) == PhaseOf(t.pcs[0]);
    hide Inv, Next, RoundComing;
  }

  lemma OtherStep(c: Config, f0: seq<seq<Rec>>, s: State, a: Act)
    requires Valid(c) && BeforeRace(c, f0, s) && !LastClosing(c, f0, s)
    requires Enabled(s, a) && StepSafe(c, s, a) && Inv(c, f0, Next(c, s, a))
    ensures BeforeRace(c, f0, Next(c, s, a))
  {
    hide BeforeRace, LastClosing, Inv, StepOf, MapsWell, PromptAct, VisitOk;
    match a
    case Move(p) => OtherMove(c, f0, s, p);
    case Open => OtherOpen(c, f0, s);
  }

  lemma {:induction false} RaceFrom(c: Config, f0: seq<seq<Rec>>, s: State) returns (acts: seq<Act>)
    requires Guarded(c) && Mappable(c, |f0|) && BeforeRace(c, f0, s)
    ensures Legal(c, s, acts) && Prompt(c, s, acts) && Race(Run(c, s, acts))
    decreases MeasureNat(c, f0, s)
  {
    var a := RaceStep(c, f0, s);
    var t := Next(c, s, a);
    var rest := [];
    if !Race(t) {
      StepLowersMeasure(c, f0, s, a);
      rest := RaceFrom(c, f0, t);
    }
    hide Next, Enabled, PromptAct, Race, Inv, MapsWell, VisitOk;
    RunStep(c, s, a, rest);
    acts := [a] + rest;
  }

  /** Whatever the arguments, if the file has a window at all there is a schedule in which,
      after the last chunk, main comes to restore BLOCKS while a worker is still at its test. */
  lemma RaceReachable(c: Config, f0: seq<seq<Rec>>)
    requires Guarded(c) && Tiled(c, f0) && Mappable(c, |f0|) && f0 != []
    ensures exists s :: Reachable(c, f0, s) && Race(s)
  {
    InitInv(c, f0);
    var acts := RaceFrom(c, f0, Init(c, f0));
    assert Reached(c, f0, Run(c, Init(c, f0), acts));
  }

  /** The overtaken worker q goes for a round of its own: main waits at the end of the chunk,
      or stands at the exit, or is gone. */
  predicate Stranded(s: State, q: nat) {
    && 0 < q < |s.pcs| && s.runs > 4 && s.done >= |s.file|
    && (|| (s.pcs[0] == Wait(ChunkEnd) && (s.pcs[q] == MergeTest || s.pcs[q] == Wait(RoundOpen)))
        || ((s.pcs[0] == LoopTest || s.pcs[0] == Wait(Exit)) && (s.pcs[q] == Halve || s.pcs[q] == Wait(RoundGo)))
        || (s.pcs[0] == Done && s.pcs[q] != Done))
  }

  lemma StrandedStep(c: Config, s: State, q: nat, a: Act)
    requires Valid(c) && Stranded(s, q) && Enabled(s, a)
    ensures Stranded(Next(c, s, a), q)
  {
    RunsFacts(c, 0);
    match a
    case Open =>
    case Move(p) =>
      StepFramed(c, s, p);
      var t := StepOf(c, s, p);
      assert p == 0 ==> s.pcs[0] == LoopTest && t == Goto(s, 0, Wait(Exit));
      assert p == q && s.pcs[q] == MergeTest ==> t.pcs[q] == Wait(RoundOpen);
      assert p == q && s.pcs[q] == Halve ==> t.pcs[q] == Wait(RoundGo);
      hide StepOf;
  }

  lemma {:induction false} StrandedForever(c: Config, s: State, q: nat, acts: seq<Act>)
    requires Valid(c) && Stranded(s, q) && Legal(c, s, acts)
    ensures Stranded(Run(c, s, acts), q)
    decreases |acts|
  {
    hide Next, Enabled, Stranded;
    if acts != [] {
      StrandedStep(c, s, q, acts[0]);
      StrandedForever(c, Next(c, s, acts[0]), q, acts[1..]);
    }
  }

  /** What the race costs: once main has restored BLOCKS after the last chunk while worker q is
      at its test, no continuation, prompt or not, brings all threads to their end. */
  lemma RaceStrands(c: Config, f0: seq<seq<Rec>>, s: State, q: nat, acts: seq<Act>)
    requires Reachable(c, f0, s) && 0 < q < |s.pcs| && s.pcs[0] == Reset && s.pcs[q] == MergeTest
    requires s.done == |s.file| && Legal(c, Next(c, s, Move(0)), acts)
    ensures !AllDone(Run(c, Next(c, s, Move(0)), acts))
  {
    RunsFacts(c, 0);
    var t := Next(c, s, Move(0));
    assert Stranded(t, q);
    hide Reachable, Next, Legal;
    StrandedForever(c, t, q, acts);
  }
}
