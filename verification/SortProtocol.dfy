/** The barrier and claim protocol of the sort_index threads: lockstep, who writes what and
    when, exclusive claims, and the two places where the program relies on luck. */
module SortProtocol {
  import opened Base
  import opened Runs
  import opened Blocks
  import opened SortModel
  import opened SortInvariant
  import opened SortSteps
  import opened SortRounds
  import opened SortClaims
  import opened SortTheorems

  // ------------------------------------------------------------------ lockstep

  /** Whoever waits at the barrier waits at the same place of the program. */
  ghost predicate SameMeeting(s: State) {
    forall p, q | 0 <= p < |s.pcs| && 0 <= q < |s.pcs| && s.pcs[p].Wait? && s.pcs[q].Wait? ::
      s.pcs[p].at == s.pcs[q].at
  }

  lemma InvSameMeeting(c: Config, f0: seq<seq<Rec>>, s: State)
    requires Inv(c, f0, s)
    ensures SameMeeting(s)
  {
    hide Target, Common, SortingWindow, LockOwned, PairClaim, BlockClaim, MergeAll, RoundsLeft, RoundReady;
    forall p, q | 0 <= p < |s.pcs| && 0 <= q < |s.pcs| && s.pcs[p].Wait? && s.pcs[q].Wait?
      ensures s.pcs[p].at == s.pcs[q].at
    {
      assert PhaseOf(s.pcs[p]) == PhaseOf(s.pcs[0]) == PhaseOf(s.pcs[q]);
      if PhaseOf(s.pcs[0]) == Opening {
        assert OpeningPc(s, p, s.pcs[p]) && OpeningPc(s, q, s.pcs[q]);
      } else if PhaseOf(s.pcs[0]) == Between && !RoundComing(c, f0, s) {
        assert ChunkClosing(c, f0, s);
      }
    }
  }

  /** In every reachable state all participants are in the same phase of the program, and
      the barrier never opens for participants that wait at different places. */
  lemma Lockstep(c: Config, f0: seq<seq<Rec>>, s: State)
    requires Reachable(c, f0, s)
    ensures exists ph :: ph != Lost && InPhase(s, ph)
    ensures SameMeeting(s)
  {
    ReachableInv(c, f0, s);
    InvSameMeeting(c, f0, s);
    hide PhaseInv, Common;
    assert InPhase(s, PhaseOf(s.pcs[0]));
    LostNever(c, f0, s);
  }

  /** The participant is at the barrier, or its next step only takes it there without a look
      at BLOCKS or the claim map. */
  predicate Held(pc: Pc) {
    pc.Wait? || pc == Halve || pc == LoopTest
  }

  /** The act changes BLOCKS or frees an entry of the claim map. */
  ghost predicate Resets(s: State, t: State) {
    t.runs != s.runs || exists i :: Busy(s.claims, i) && !Busy(t.claims, i)
  }

  lemma WhoResets(c: Config, s: State, p: nat)
    requires CanMove(s, p) && Resets(s, StepOf(c, s, p))
    ensures s.pcs[p] == InitMap || (s.pcs[p] == Halve && p == 0) || s.pcs[p] == Reset
  {
    hide SetBlk, Blk, Poke, FreshMap;
  }

  /** Only main changes BLOCKS or frees map entries, and only while every other participant
      is held at the barrier. */
  lemma ResetsOnlyAtBarrier(c: Config, f0: seq<seq<Rec>>, s: State, a: Act)
    requires Reachable(c, f0, s) && Enabled(s, a) && PromptAct(s, a) && Resets(s, Next(c, s, a))
    ensures a == Move(0) && forall q | 0 < q < |s.pcs| :: Held(s.pcs[q])
  {
    ReachableInv(c, f0, s);
    assert a.Move?;
    WhoResets(c, s, a.p);
    hide StepOf, Resets, Next, Reachable, Common, Target, MergeAll,
         SortingInv, ClaimingInv, RoundsLeft, RoundReady, NextGuard;
    var p := a.p;
    assert PhaseOf(s.pcs[p]) == PhaseOf(s.pcs[0]);
    if s.pcs[p] == InitMap {
      assert OpeningPc(s, p, s.pcs[p]);
      forall q | 0 < q < |s.pcs|
        ensures Held(s.pcs[q])
      {
        assert OpeningPc(s, q, s.pcs[q]);
      }
    } else if s.pcs[p] == Reset {
      MainOnly(c, f0, s, p);
      ClosingOnly(c, f0, s);
    }
  }

  // -------------------------------------------------------------------- claims

  /** The participant is merging pair no of the current round. */
  predicate MergesPair(pc: Pc, no: nat) {
    (pc.Store? && pc.back.ClaimLoop? && pc.no == no) || (pc.Copy? && pc.back.ClaimLoop? && pc.sav == no)
  }

  /** Two participants that merge at the same time work on disjoint stretches of the window,
      each inside it, whatever point of the merge each has reached. */
  lemma MergesDisjoint(c: Config, f0: seq<seq<Rec>>, s: State, p: nat, q: nat, i: nat, j: nat)
    requires Reachable(c, f0, s) && p < |s.pcs| && q < |s.pcs| && p != q
    requires MergesPair(s.pcs[p], i) && MergesPair(s.pcs[q], j)
    ensures var n := c.RunLen(s.runs);
      && i * n + 2 * n <= c.memsize && j * n + 2 * n <= c.memsize
      && (i * n + 2 * n <= j * n || j * n + 2 * n <= i * n)
  {
    ReachableInv(c, f0, s);
    assert PhaseOf(s.pcs[p]) == Claiming && PhaseOf(s.pcs[0]) == Claiming;
    assert ClaimingInv(c, f0, s);
    hide Reachable, Inv, ClaimingInv;
    MergerOf(c, f0, s, p, i);
    MergerOf(c, f0, s, q, j);
    hide MergesPair;
    PairsApart(c.RunLen(s.runs), i, j);
  }

  lemma MergerOf(c: Config, f0: seq<seq<Rec>>, s: State, p: nat, i: nat)
    requires Guarded(c) && ClaimingInv(c, f0, s) && p < |s.pcs| && MergesPair(s.pcs[p], i)
    ensures i < |s.log.merger| && s.log.merger[i] == Some(p) && i % 2 == 0
    ensures i * c.RunLen(s.runs) + 2 * c.RunLen(s.runs) <= c.memsize
  {
    MergerPc(c, f0, s, p);
    assert |s.log.merger| == s.runs;
    hide ClaimingInv, ClaimingPc;
    PairInWindow(c, f0, s, i);
  }

  /** When the barrier at the end of a round opens, every even index below BLOCKS has been
      claimed and merged exactly once, and the window is what MergePairs makes of it. */
  lemma RoundMergesEachPairOnce(c: Config, f0: seq<seq<Rec>>, s: State)
    requires Reachable(c, f0, s) && Enabled(s, Open) && PhaseOf(s.pcs[0]) == Claiming
    ensures |s.log.merger| == |s.log.merges| == s.runs && s.at < |s.file|
    ensures forall i | IsPair(s, i) :: s.log.merger[i].Some? && s.log.merges[i] == 1
    ensures s.file[s.at] == MergePairs(s.log.base, c.RunLen(s.runs))
  {
    ReachableInv(c, f0, s);
    hide Reachable, Common, Target, MergeAll, LockOwned, PairClaim, ClaimingPc, MergePairs;
    assert forall p | 0 <= p < |s.pcs| :: s.pcs[p] == Wait(RoundEnd) by {
      assert forall p | 0 <= p < |s.pcs| :: PhaseOf(s.pcs[p]) == Claiming && s.pcs[p].Wait?;
    }
    RoundComplete(c, f0, s);
  }

  /** At no time of a round has a pair been merged twice, and whoever visits i == BLOCKS comes
      out with nothing to merge. After the first round, and in it if the word past the map is
      busy, the visit finds the entry busy and leaves everything alone. */
  lemma ExtraVisitDoesNothing(c: Config, f0: seq<seq<Rec>>, s: State)
    requires Reachable(c, f0, s) && s.pcs != [] && PhaseOf(s.pcs[0]) == Claiming
    ensures |s.log.merges| == s.runs && forall i | IsPair(s, i) :: s.log.merges[i] <= 1
    ensures forall p | 0 <= p < |s.pcs| && s.pcs[p].ClaimUnlock? && s.pcs[p].i == s.runs :: s.pcs[p].sav == -1
    ensures s.log.rounds > 1 || c.over.isBusy ==>
      forall p | 0 <= p < |s.pcs| && s.pcs[p] == ClaimCheck(s.runs) ::
        StepOf(c, s, p) == s.(pcs := s.pcs[p := ClaimUnlock(s.runs, -1)])
  {
    ReachableInv(c, f0, s);
    VisitEntry(c, f0, s);
    hide Reachable, Common, Target, MergeAll, LockOwned, ClaimingPc, Merged, Pair, Blk, MergeSeq, VisitGuard;
    forall i | IsPair(s, i)
      ensures s.log.merges[i] <= 1
    {
      assert PairClaim(c, s, i);
    }
  }

  lemma VisitEntry(c: Config, f0: seq<seq<Rec>>, s: State)
    requires Guarded(c) && ClaimingInv(c, f0, s)
    ensures s.log.rounds > 1 || c.over.isBusy ==> Busy(s.claims, s.runs)
    ensures forall p | 0 <= p < |s.pcs| && s.pcs[p].ClaimUnlock? && s.pcs[p].i == s.runs :: s.pcs[p].sav == -1
  {
    if s.log.rounds > 1 {
      Pow2Monotone(c.order + 1 - s.log.rounds, c.order);
    }
    hide PairClaim, Target, MergeAll, LockOwned;
    forall p | 0 <= p < |s.pcs| && s.pcs[p].ClaimUnlock? && s.pcs[p].i == s.runs
      ensures s.pcs[p].sav == -1
    {
      assert ClaimingPc(c, s, p, s.pcs[p]);
    }
  }

  /** When the barrier after the sort phase opens, every block holds what qsort makes of its
      old contents. Each was sorted once, save that block `amount`, if somebody else has
      claimed it before its owner came, was sorted twice. */
  lemma SortCoverage(c: Config, f0: seq<seq<Rec>>, s: State)
    requires Reachable(c, f0, s) && Enabled(s, Open) && PhaseOf(s.pcs[0]) == Sorting
    ensures s.at < |s.file| == |f0| && |s.log.sorts| == |s.log.claimer| == c.Blocks()
    ensures SortedBlocksOf(c, f0[s.at], s.file[s.at])
    ensures forall i | 0 <= i < c.Blocks() ::
      s.log.sorts[i] == 1 || (i == c.amount && s.log.sorts[i] == 2 && s.log.claimer[i].Some?)
  {
    ReachableInv(c, f0, s);
    hide Reachable, Target, MergeAll, LockOwned, BlockClaim, SortingPc, SortingWindow;
    assert forall p | 0 <= p < |s.pcs| :: s.pcs[p] == Wait(BlocksSorted) by {
      assert forall p | 0 <= p < |s.pcs| :: PhaseOf(s.pcs[p]) == Sorting && s.pcs[p].Wait?;
    }
    SortingComplete(c, f0, s);
    SortedWindow(c, f0[s.at], s.file[s.at], s.log.sorts);
  }

  /** Before main leaves a chunk it has halved BLOCKS exactly log2(blocks) - 1 times. */
  lemma RoundCount(c: Config, f0: seq<seq<Rec>>, s: State)
    requires Reachable(c, f0, s) && s.pcs != [] && s.pcs[0] == Advance
    ensures Pow2(s.log.rounds + 1) == c.Blocks()
  {
    ReachableInv(c, f0, s);
    hide Reachable, Common, BetweenInv;
    AdvanceRounds(c, f0, s);
    RunsFacts(c, 0);
  }

  lemma AdvanceRounds(c: Config, f0: seq<seq<Rec>>, s: State)
    requires BetweenInv(c, f0, s) && s.pcs != [] && s.pcs[0] == Advance
    ensures s.log.rounds == c.order - 1
  {
    hide Target, MergeAll, RoundsLeft, MapShape;
  }

  // --------------------------------------- main's restore of BLOCKS, and the guard

  /** Restoring BLOCKS after a chunk is safe exactly when no worker is still at the test
      BLOCKS > 4: if one is, it enters a round that nobody else enters. */
  lemma RestoreSafeIffNoWorkerTests(c: Config, f0: seq<seq<Rec>>, s: State)
    requires Reachable(c, f0, s) && s.pcs != [] && s.pcs[0] == Reset
    ensures Enabled(s, Move(0))
    ensures (forall q | 0 < q < |s.pcs| :: s.pcs[q] != MergeTest) <==>
      var t := Next(c, s, Move(0));
      forall acts | Legal(c, t, acts) && Prompt(c, t, acts) :: SameMeeting(Run(c, t, acts))
  {
    ReachableInv(c, f0, s);
    RunsFacts(c, 0);
    var t := Next(c, s, Move(0));
    if forall q | 0 < q < |s.pcs| :: s.pcs[q] != MergeTest {
      StepKeepsInv(c, f0, s, Move(0));
      hide Inv, Next;
      forall acts | Legal(c, t, acts) && Prompt(c, t, acts)
        ensures SameMeeting(Run(c, t, acts))
      {
        RunKeepsInv(c, f0, t, acts);
        InvSameMeeting(c, f0, Run(c, t, acts));
      }
    } else {
      var q :| 0 < q < |s.pcs| && s.pcs[q] == MergeTest;
      hide Inv;
      OneMove(c, t, q);
      var u := Next(c, t, Move(q));
      assert u.pcs[0] == Wait(ChunkEnd) && u.pcs[q] == Wait(RoundOpen);
    }
  }

  /** The schedule of a single step. */
  lemma OneMove(c: Config, s: State, p: nat)
    requires Enabled(s, Move(p))
    ensures Legal(c, s, [Move(p)]) && Run(c, s, [Move(p)]) == Next(c, s, Move(p))
    ensures PromptAct(s, Move(p)) ==> Prompt(c, s, [Move(p)])
  {
    hide Next, Enabled, PromptAct;
    assert [Move(p)][1..] == [];
    assert Legal(c, Next(c, s, Move(p)), []);
  }
}
