/** The invariant inside a merge round, where participants claim and merge pairs of runs. */
module SortClaims {
  import opened Base
  import opened Runs
  import opened Blocks
  import opened SortModel
  import opened SortInvariant
  import opened SortSteps
  import opened SortRounds

  /** Steps of the claim loop that move only the pc and the lock. */
  predicate OnlyLocks(pc: Pc) {
    pc.ClaimTest? || pc.ClaimLock? || pc.ClaimCheck? || pc.ClaimUnlock?
  }

  lemma ClaimSelf(c: Config, f0: seq<seq<Rec>>, s: State, p: nat)
    requires ClaimingInv(c, f0, s) && CanMove(s, p) && OnlyLocks(s.pcs[p]) && VisitOk(s, Move(p))
    ensures var t := StepClaim(c, s, p);
      && ClaimingPc(c, t, p, t.pcs[p]) && !t.pcs[p].Store?
      && (forall i | 0 <= i < s.runs :: MergePending(t.pcs[p], i) == MergePending(s.pcs[p], i))
  {
    hide LockOwned, Target, MergeAll, RunsAfter, Blk;
    assert ClaimingPc(c, s, p, s.pcs[p]);
    if s.pcs[p].ClaimCheck? && !Busy(s.claims, s.pcs[p].i) && s.pcs[p].i < s.runs {
      assert PairClaim(c, s, s.pcs[p].i);
    }
  }

  lemma ClaimLocks(c: Config, f0: seq<seq<Rec>>, s: State, p: nat)
    requires ClaimingInv(c, f0, s) && CanMove(s, p) && OnlyLocks(s.pcs[p])
    ensures var t := StepClaim(c, s, p);
      && LockOwned(t, t.mergeLock, HoldsMergeLock)
      && LocalStep(c, s, t, p, Claiming)
      && t == s.(pcs := t.pcs, mergeLock := t.mergeLock)
  {
    hide PairClaim, Target, MergeAll, RunsAfter;
    assert ClaimingPc(c, s, p, s.pcs[p]);
    hide ClaimingPc;
  }

  /** A participant's own facts do not look at the other participants. */
  lemma ClaimOthers(c: Config, s: State, t: State, p: nat)
    requires |s.log.merger| == s.runs && p < |s.pcs|
    requires |t.pcs| == |s.pcs| && t == s.(pcs := s.pcs[p := t.pcs[p]], mergeLock := t.mergeLock, file := t.file)
    requires forall q | 0 <= q < |s.pcs| :: ClaimingPc(c, s, q, s.pcs[q])
    requires ClaimingPc(c, t, p, t.pcs[p])
    ensures forall q | 0 <= q < |t.pcs| :: ClaimingPc(c, t, q, t.pcs[q])
  {
    hide Blk;
    forall q | 0 <= q < |t.pcs|
      ensures ClaimingPc(c, t, q, t.pcs[q])
    {
      assert ClaimingPc(c, s, q, s.pcs[q]);
    }
  }

  lemma ClaimPair(c: Config, s: State, t: State, p: nat, i: nat)
    requires s.at < |s.file| && |s.log.merger| == |s.log.merges| == s.runs && i < s.runs
    requires p < |s.pcs| == |t.pcs| && t == s.(pcs := s.pcs[p := t.pcs[p]], mergeLock := t.mergeLock)
    requires !s.pcs[p].Store? && !t.pcs[p].Store? && MergePending(t.pcs[p], i) == MergePending(s.pcs[p], i)
    requires PairClaim(c, s, i)
    ensures PairClaim(c, t, i)
  {
    hide Pair, Blk, MergeSeq;
    assert forall q | 0 <= q < |s.pcs| :: q != p ==> t.pcs[q] == s.pcs[q];
    assert forall pc :: Merged(c, t, pc, i) == Merged(c, s, pc, i);
    hide Merged;
  }

  lemma KeepClaim(c: Config, f0: seq<seq<Rec>>, s: State, p: nat)
    requires ClaimingInv(c, f0, s) && CanMove(s, p) && OnlyLocks(s.pcs[p]) && VisitOk(s, Move(p))
    ensures ClaimingInv(c, f0, StepClaim(c, s, p)) && LocalStep(c, s, StepClaim(c, s, p), p, Claiming)
  {
    var t := StepClaim(c, s, p);
    ClaimSelf(c, f0, s, p);
    ClaimLocks(c, f0, s, p);
    assert t.pcs == s.pcs[p := t.pcs[p]];
    hide StepClaim, LockOwned, ClaimingPc, PairClaim, Target, MergeAll, RunsAfter, MapShape, LocalStep, VisitOk;
    ClaimOthers(c, s, t, p);
    forall i | 0 <= i < t.runs && i % 2 == 0
      ensures PairClaim(c, t, i)
    {
      ClaimPair(c, s, t, p, i);
    }
  }

  // ---------------------------------------------------------------- claiming

  /** t is s after participant p has claimed pair k. */
  ghost predicate ClaimedBy(c: Config, s: State, t: State, p: nat, k: nat) {
    && p < |s.pcs| && k < |s.log.merger| && k < |s.claims|
    && t == s.(pcs := s.pcs[p := ClaimUnlock(k, k)], claims := SetBusy(s.claims, k),
               log := s.log.(merger := s.log.merger[k := Some(p)]))
  }

  lemma ClaimSetEffect(c: Config, f0: seq<seq<Rec>>, s: State, p: nat, k: nat)
    requires ClaimingInv(c, f0, s) && p < |s.pcs| && s.pcs[p] == ClaimSet(k) && k != s.runs
    ensures IsPair(s, k) && s.log.merger[k].None? && ClaimedBy(c, s, StepClaim(c, s, p), p, k)
  {
    hide PairClaim, Target, MergeAll, RunsAfter, LockOwned;
    assert ClaimingPc(c, s, p, s.pcs[p]);
    assert s.claims[k].block == k;
  }

  lemma ClaimSetPcs(c: Config, f0: seq<seq<Rec>>, s: State, t: State, p: nat, k: nat)
    requires ClaimingInv(c, f0, s) && ClaimedBy(c, s, t, p, k)
    requires s.pcs[p] == ClaimSet(k) && IsPair(s, k) && s.log.merger[k].None?
    ensures forall q | 0 <= q < |t.pcs| :: ClaimingPc(c, t, q, t.pcs[q])
  {
    hide PairClaim, Target, MergeAll, RunsAfter, Blk;
    assert forall j :: 0 <= j && Busy(s.claims, j) ==> Busy(t.claims, j);
    assert ClaimingPc(c, s, p, s.pcs[p]);
    forall q | 0 <= q < |t.pcs|
      ensures ClaimingPc(c, t, q, t.pcs[q])
    {
      assert ClaimingPc(c, s, q, s.pcs[q]);
      assert q != p ==> !HoldsMergeLock(s.pcs[q]);
    }
  }

  lemma ClaimSetPairs(c: Config, f0: seq<seq<Rec>>, s: State, t: State, p: nat, k: nat)
    requires ClaimingInv(c, f0, s) && ClaimedBy(c, s, t, p, k)
    requires s.pcs[p] == ClaimSet(k) && IsPair(s, k) && s.log.merger[k].None?
    requires t.at < |t.file| && |t.log.merger| == |t.log.merges| == t.runs
    ensures forall i | 0 <= i < t.runs && i % 2 == 0 :: PairClaim(c, t, i)
  {
    hide ClaimingPc, Target, MergeAll, RunsAfter, LockOwned, Pair, Blk, MergeSeq;
    forall i | 0 <= i < t.runs && i % 2 == 0
      ensures PairClaim(c, t, i)
    {
      assert PairClaim(c, s, i);
    }
  }

  lemma KeepClaimSet(c: Config, f0: seq<seq<Rec>>, s: State, p: nat)
    requires ClaimingInv(c, f0, s) && p < |s.pcs| && s.pcs[p].ClaimSet? && s.pcs[p].i != s.runs
    ensures ClaimingInv(c, f0, StepClaim(c, s, p)) && LocalStep(c, s, StepClaim(c, s, p), p, Claiming)
  {
    var t, k := StepClaim(c, s, p), s.pcs[p].i;
    ClaimSetEffect(c, f0, s, p, k);
    ClaimSetPcs(c, f0, s, t, p, k);
    hide StepClaim, ClaimingPc, PairClaim, Target, MergeAll, RunsAfter;
    ClaimSetPairs(c, f0, s, t, p, k);
  }

  /** The extra visit of an entry that names no run marks it busy, and that is all. */
  lemma ExtraSetEffect(c: Config, f0: seq<seq<Rec>>, s: State, p: nat)
    requires ClaimingInv(c, f0, s) && p < |s.pcs| && s.pcs[p] == ClaimSet(s.runs)
    ensures StepClaim(c, s, p) ==
      s.(pcs := s.pcs[p := ClaimUnlock(s.runs, -1)], claims := SetBusy(s.claims, s.runs))
  {
    hide PairClaim, Target, MergeAll, RunsAfter, LockOwned;
    assert ClaimingPc(c, s, p, s.pcs[p]);
  }

  lemma ExtraSetPcs(c: Config, f0: seq<seq<Rec>>, s: State, t: State, p: nat)
    requires ClaimingInv(c, f0, s) && p < |s.pcs| && s.pcs[p] == ClaimSet(s.runs)
    requires t == s.(pcs := s.pcs[p := ClaimUnlock(s.runs, -1)], claims := SetBusy(s.claims, s.runs))
    ensures forall q | 0 <= q < |t.pcs| :: ClaimingPc(c, t, q, t.pcs[q])
  {
    hide PairClaim, Target, MergeAll, RunsAfter, Blk;
    assert forall j :: 0 <= j && Busy(s.claims, j) ==> Busy(t.claims, j);
    assert ClaimingPc(c, s, p, s.pcs[p]);
    forall q | 0 <= q < |t.pcs|
      ensures ClaimingPc(c, t, q, t.pcs[q])
    {
      assert ClaimingPc(c, s, q, s.pcs[q]);
      assert q != p ==> !HoldsMergeLock(s.pcs[q]);
    }
  }

  lemma ExtraSetPairs(c: Config, f0: seq<seq<Rec>>, s: State, t: State, p: nat)
    requires ClaimingInv(c, f0, s) && p < |s.pcs| && s.pcs[p] == ClaimSet(s.runs)
    requires t == s.(pcs := s.pcs[p := ClaimUnlock(s.runs, -1)], claims := SetBusy(s.claims, s.runs))
    ensures forall i | 0 <= i < t.runs && i % 2 == 0 :: PairClaim(c, t, i)
  {
    hide ClaimingPc, Target, MergeAll, RunsAfter, LockOwned, Pair, Blk, MergeSeq;
    forall i | 0 <= i < t.runs && i % 2 == 0
      ensures PairClaim(c, t, i)
    {
      assert PairClaim(c, s, i);
    }
  }

  lemma KeepExtraSet(c: Config, f0: seq<seq<Rec>>, s: State, p: nat)
    requires ClaimingInv(c, f0, s) && p < |s.pcs| && s.pcs[p] == ClaimSet(s.runs)
    ensures ClaimingInv(c, f0, StepClaim(c, s, p)) && LocalStep(c, s, StepClaim(c, s, p), p, Claiming)
  {
    var t := StepClaim(c, s, p);
    ExtraSetEffect(c, f0, s, p);
    ExtraSetPcs(c, f0, s, t, p);
    ExtraSetPairs(c, f0, s, t, p);
    hide StepClaim, ClaimingPc, PairClaim, Target, MergeAll, RunsAfter;
  }

  // ----------------------------------------------------------------- merging

  /** The two runs of pair k are in bounds, and are still those of the round's start. */
  lemma PairInWindow(c: Config, f0: seq<seq<Rec>>, s: State, k: nat)
    requires Valid(c) && ClaimingInv(c, f0, s) && IsPair(s, k)
    ensures var n := c.RunLen(s.runs);
      && c.memsize == s.runs * n && k + 2 <= s.runs && k * n + 2 * n <= c.memsize
  {
    RunLenExact(c, s.log.rounds);
    RunsEven(c, s.log.rounds);
    Fits(c.RunLen(s.runs), s.runs, k, 2);
  }

  lemma RunsEven(c: Config, rounds: nat)
    requires RunsAfter(c, rounds) >= 4
    ensures RunsAfter(c, rounds) % 2 == 0
  {
  }

  /** At the copy the pair still holds what it held when the round began. */
  lemma CopiedRuns(c: Config, f0: seq<seq<Rec>>, s: State, p: nat, k: nat)
    requires Valid(c) && ClaimingInv(c, f0, s) && p < |s.pcs|
    requires s.pcs[p] == Copy(k, s.runs, ClaimLoop(k)) && IsPair(s, k)
    ensures var n := c.RunLen(s.runs);
      && Blk(s.file[s.at], n, k) == Blk(s.log.base, n, k)
      && Blk(s.file[s.at], n, k + 1) == Blk(s.log.base, n, k + 1)
      && |Blk(s.log.base, n, k)| == n && |Blk(s.log.base, n, k + 1)| == n
      && k * n + 2 * n <= |s.file[s.at]|
  {
    hide Target, MergeAll, RunsAfter, LockOwned;
    PairInWindow(c, f0, s, k);
    assert ClaimingPc(c, s, p, s.pcs[p]);
    assert PairClaim(c, s, k);
    var n := c.RunLen(s.runs);
    hide MergeSeq;
    PairIsTwoBlocks(s.file[s.at], n, s.runs, k);
    PairIsTwoBlocks(s.log.base, n, s.runs, k);
    assert Blk(s.file[s.at], n, k) == Pair(s.file[s.at], n, k)[..n] == Pair(s.log.base, n, k)[..n];
    assert Blk(s.file[s.at], n, k + 1) == Pair(s.file[s.at], n, k)[n..] == Pair(s.log.base, n, k)[n..];
  }

  /** A claim loop merge works on the pair its loop index names. */
  lemma MergerPc(c: Config, f0: seq<seq<Rec>>, s: State, p: nat)
    requires ClaimingInv(c, f0, s) && p < |s.pcs| && (s.pcs[p].Copy? || s.pcs[p].Store?)
    ensures s.pcs[p].back.ClaimLoop? && s.pcs[p].runs == s.runs && IsPair(s, s.pcs[p].back.i)
    ensures s.pcs[p].Copy? ==> s.pcs[p].sav == s.pcs[p].back.i
    ensures s.pcs[p].Store? ==> s.pcs[p].no == s.pcs[p].back.i
    ensures s.log.merger[s.pcs[p].back.i] == Some(p)
    ensures ClaimingPc(c, s, p, s.pcs[p])
  {
    hide PairClaim, Target, MergeAll, RunsAfter, LockOwned;
    assert ClaimingPc(c, s, p, s.pcs[p]);
  }

  lemma CopyEffect(c: Config, f0: seq<seq<Rec>>, s: State, p: nat, k: nat)
    requires Valid(c) && ClaimingInv(c, f0, s) && p < |s.pcs|
    requires s.pcs[p] == Copy(k, s.runs, ClaimLoop(k)) && IsPair(s, k)
    ensures var n := c.RunLen(s.runs);
      StepMerge(c, s, p) == s.(pcs := s.pcs[p :=
        Store(k, s.runs, ClaimLoop(k), Blk(s.log.base, n, k), Blk(s.log.base, n, k + 1), 0, 0)])
  {
    CopiedRuns(c, f0, s, p, k);
    hide Blk;
  }

  lemma CopyPairs(c: Config, f0: seq<seq<Rec>>, s: State, t: State, p: nat, k: nat)
    requires Valid(c) && ClaimingInv(c, f0, s) && p < |s.pcs|
    requires s.pcs[p] == Copy(k, s.runs, ClaimLoop(k)) && IsPair(s, k) && s.log.merger[k] == Some(p)
    requires var n := c.RunLen(s.runs);
      t == s.(pcs := s.pcs[p := Store(k, s.runs, ClaimLoop(k), Blk(s.log.base, n, k), Blk(s.log.base, n, k + 1), 0, 0)])
    ensures forall i | 0 <= i < t.runs && i % 2 == 0 :: PairClaim(c, t, i)
  {
    hide ClaimingPc, Target, MergeAll, RunsAfter, LockOwned, Pair, Blk;
    var n := c.RunLen(s.runs);
    var a, b := Blk(s.log.base, n, k), Blk(s.log.base, n, k + 1);
    assert a[0..] == a && b[0..] == b;
    assert Merged(c, t, t.pcs[p], k) == [] + MergeSeq(a, b);
    hide MergeSeq;
    forall i | 0 <= i < t.runs && i % 2 == 0
      ensures PairClaim(c, t, i)
    {
      assert PairClaim(c, s, i);
    }
  }

  lemma KeepCopy(c: Config, f0: seq<seq<Rec>>, s: State, p: nat)
    requires Valid(c) && ClaimingInv(c, f0, s) && p < |s.pcs| && s.pcs[p].Copy?
    ensures ClaimingInv(c, f0, StepMerge(c, s, p)) && LocalStep(c, s, StepMerge(c, s, p), p, Claiming)
  {
    MergerPc(c, f0, s, p);
    var k, t := s.pcs[p].back.i, StepMerge(c, s, p);
    CopyEffect(c, f0, s, p, k);
    CopyPairs(c, f0, s, t, p, k);
    ClaimOthers(c, s, t, p);
    hide StepMerge, ClaimingPc, PairClaim, Target, MergeAll, RunsAfter, Blk;
  }

  /** t is s after participant p has stored one record of its merge of pair k. */
  ghost predicate StoredBy(c: Config, s: State, t: State, p: nat, k: nat) {
    && p < |s.pcs| && MoreToStore(s.pcs[p]) && s.pcs[p].no == k && s.at < |s.file| && |t.pcs| == |s.pcs|
    && var pc := s.pcs[p];
    && t == s.(pcs := s.pcs[p := Stored(pc)],
               file := s.file[s.at := Poke(s.file[s.at], c.RunLen(s.runs), k, pc.x + pc.y, Chosen(pc))])
  }

  /** What the storing participant still has to do, together with what is written, stays
      the merge of its two runs. */
  lemma StoreOwnPair(c: Config, s: State, t: State, p: nat, k: nat)
    requires StoredBy(c, s, t, p, k) && k + 2 <= s.runs
    requires |s.file[s.at]| == s.runs * c.RunLen(s.runs)
    requires |s.pcs[p].left| == |s.pcs[p].right| == c.RunLen(s.runs)
    ensures Merged(c, t, t.pcs[p], k) == Merged(c, s, s.pcs[p], k)
  {
    var n, w, pc := c.RunLen(s.runs), s.file[s.at], s.pcs[p];
    hide Poke, Pair, MergeRest, Chosen, Stored;
    PokeSplit(w, n, s.runs, k, k, pc.x + pc.y, Chosen(pc));
    StoreInto(Pair(w, n, k), pc);
  }

  lemma StoreOther(c: Config, s: State, t: State, p: nat, k: nat, i: nat)
    requires StoredBy(c, s, t, p, k) && |s.file[s.at]| == s.runs * c.RunLen(s.runs)
    requires |s.log.merger| == |s.log.merges| == s.runs && IsPair(s, k) && IsPair(s, i) && i != k && s.runs % 2 == 0
    requires s.pcs[p].x + s.pcs[p].y < 2 * c.RunLen(s.runs)
    requires PairClaim(c, s, i) && |t.file| == |s.file|
    ensures PairClaim(c, t, i)
  {
    var n, w, pc := c.RunLen(s.runs), s.file[s.at], s.pcs[p];
    hide Pair, Poke, Blk, MergeSeq, Merged, Chosen, Stored;
    PokeSplit(w, n, s.runs, k, i, pc.x + pc.y, Chosen(pc));
    if s.log.merger[i].Some? && s.log.merger[i].value < |s.pcs| {
      OtherMerged(c, s, t, p, s.log.merger[i].value, k, i);
    }
  }

  lemma StorePairs(c: Config, f0: seq<seq<Rec>>, s: State, t: State, p: nat, k: nat)
    requires Valid(c) && ClaimingInv(c, f0, s) && StoredBy(c, s, t, p, k)
    requires IsPair(s, k) && s.log.merger[k] == Some(p) && ClaimingPc(c, s, p, s.pcs[p])
    requires |t.file| == |s.file|
    ensures |t.file[t.at]| == c.memsize
    ensures forall i | 0 <= i < t.runs && i % 2 == 0 :: PairClaim(c, t, i)
  {
    hide Target, MergeAll, RunsAfter, LockOwned, Pair, Blk, Poke, MergeSeq, MapShape, Merged;
    var n, w, pc := c.RunLen(s.runs), s.file[s.at], s.pcs[p];
    PairInWindow(c, f0, s, k);
    RunsEven(c, s.log.rounds);
    PairIsTwoBlocks(s.log.base, n, s.runs, k);
    assert |pc.left| == |pc.right| == n;
    hide ClaimingPc;
    PokeSplit(w, n, s.runs, k, k, pc.x + pc.y, Chosen(pc));
    assert PairClaim(c, t, k) by {
      assert PairClaim(c, s, k);
      StoreOwnPair(c, s, t, p, k);
    }
    hide PairClaim;
    forall i | 0 <= i < t.runs && i % 2 == 0
      ensures PairClaim(c, t, i)
    {
      if i != k {
        StoreOther(c, s, t, p, k, i);
      }
    }
  }

  /** A store into pair k does not touch what another participant has merged of pair i. */
  lemma OtherMerged(c: Config, s: State, t: State, p: nat, q: nat, k: nat, i: nat)
    requires StoredBy(c, s, t, p, k) && q < |s.pcs| && k != i
    requires Pair(t.file[s.at], c.RunLen(s.runs), i) == Pair(s.file[s.at], c.RunLen(s.runs), i)
    requires t.at < |t.file|
    ensures MergePending(t.pcs[q], i) == MergePending(s.pcs[q], i)
    ensures MergePending(s.pcs[q], i) ==> t.pcs[q] == s.pcs[q] && Merged(c, t, t.pcs[q], i) == Merged(c, s, s.pcs[q], i)
  {
    hide Pair, Poke, MergeRest, Chosen;
  }

  lemma KeepStore(c: Config, f0: seq<seq<Rec>>, s: State, p: nat)
    requires Valid(c) && ClaimingInv(c, f0, s) && p < |s.pcs| && s.pcs[p].Store?
    requires MoreToStore(s.pcs[p])
    ensures ClaimingInv(c, f0, StepMerge(c, s, p)) && LocalStep(c, s, StepMerge(c, s, p), p, Claiming)
  {
    MergerPc(c, f0, s, p);
    var k, t := s.pcs[p].no, StepMerge(c, s, p);
    StoreEffect(c, s, p);
    assert StoredBy(c, s, t, p, k) by { hide Poke, StepMerge, MergeAll, MergeSeq; }
    hide StepMerge, Poke, MergeSeq, MergeAll, Target, RunsAfter, PairClaim;
    StorePairs(c, f0, s, t, p, k);
    ClaimOthers(c, s, t, p);
    hide ClaimingPc, Blk;
  }

  // --------------------------------------------------------------- returning

  lemma ReturnEffect(c: Config, f0: seq<seq<Rec>>, s: State, p: nat, k: nat)
    requires ClaimingInv(c, f0, s) && p < |s.pcs| && s.pcs[p].Store? && k == s.pcs[p].no
    requires s.pcs[p].x == |s.pcs[p].left| && s.pcs[p].y == |s.pcs[p].right|
    requires IsPair(s, k) && s.pcs[p].back == ClaimLoop(k)
    ensures StepMerge(c, s, p) == s.(
      pcs := s.pcs[p := ClaimTest(k + 2)], log := s.log.(merges := s.log.merges[k := s.log.merges[k] + 1]))
  {
    hide ClaimingPc, PairClaim, Target, MergeAll, RunsAfter, LockOwned, MapShape;
  }

  lemma ReturnPcs(c: Config, f0: seq<seq<Rec>>, s: State, t: State, p: nat, k: nat)
    requires ClaimingInv(c, f0, s) && p < |s.pcs| && s.pcs[p].Store? && k == s.pcs[p].no
    requires IsPair(s, k) && ClaimingPc(c, s, p, s.pcs[p])
    requires t == s.(
      pcs := s.pcs[p := ClaimTest(k + 2)], log := s.log.(merges := s.log.merges[k := s.log.merges[k] + 1]))
    ensures forall q | 0 <= q < |t.pcs| :: ClaimingPc(c, t, q, t.pcs[q])
  {
    hide PairClaim, Target, MergeAll, RunsAfter, LockOwned, Blk, MapShape;
    forall q | 0 <= q < |t.pcs|
      ensures ClaimingPc(c, t, q, t.pcs[q])
    {
      assert ClaimingPc(c, s, q, s.pcs[q]);
    }
  }

  lemma ReturnPairs(c: Config, f0: seq<seq<Rec>>, s: State, t: State, p: nat, k: nat)
    requires Valid(c) && ClaimingInv(c, f0, s) && p < |s.pcs| && s.pcs[p].Store? && k == s.pcs[p].no
    requires s.pcs[p].x == |s.pcs[p].left| && s.pcs[p].y == |s.pcs[p].right|
    requires IsPair(s, k) && s.log.merger[k] == Some(p) && ClaimingPc(c, s, p, s.pcs[p])
    requires t == s.(
      pcs := s.pcs[p := ClaimTest(k + 2)], log := s.log.(merges := s.log.merges[k := s.log.merges[k] + 1]))
    ensures forall i | 0 <= i < t.runs && i % 2 == 0 :: PairClaim(c, t, i)
  {
    hide Target, MergeAll, RunsAfter, LockOwned, MapShape, Blk;
    var n, pc := c.RunLen(s.runs), s.pcs[p];
    PairInWindow(c, f0, s, k);
    PairIsTwoBlocks(s.log.base, n, s.runs, k);
    PairIsTwoBlocks(s.file[s.at], n, s.runs, k);
    hide Pair;
    assert Merged(c, s, pc, k) == Pair(s.file[s.at], n, k) by {
      assert pc.left[pc.x..] == [] && pc.right[pc.y..] == [];
    }
    hide ClaimingPc, MergeSeq;
    forall i | 0 <= i < t.runs && i % 2 == 0
      ensures PairClaim(c, t, i)
    {
      assert PairClaim(c, s, i);
    }
  }

  lemma KeepReturn(c: Config, f0: seq<seq<Rec>>, s: State, p: nat)
    requires Valid(c) && ClaimingInv(c, f0, s) && p < |s.pcs| && s.pcs[p].Store?
    requires s.pcs[p].x == |s.pcs[p].left| && s.pcs[p].y == |s.pcs[p].right|
    ensures ClaimingInv(c, f0, StepMerge(c, s, p)) && LocalStep(c, s, StepMerge(c, s, p), p, Claiming)
  {
    MergerPc(c, f0, s, p);
    var k, t := s.pcs[p].no, StepMerge(c, s, p);
    ReturnEffect(c, f0, s, p, k);
    ReturnPcs(c, f0, s, t, p, k);
    hide StepMerge, ClaimingPc, PairClaim, Target, MergeAll, RunsAfter, Blk, MapShape;
    ReturnPairs(c, f0, s, t, p, k);
  }

  // ------------------------------------------------------------- whole phase

  lemma ClaimingKinds(c: Config, f0: seq<seq<Rec>>, s: State, p: nat)
    requires ClaimingInv(c, f0, s) && CanMove(s, p)
    ensures OnlyLocks(s.pcs[p]) || s.pcs[p].ClaimSet? || s.pcs[p].Copy?
      || (s.pcs[p].Store? && s.pcs[p].x <= |s.pcs[p].left| && s.pcs[p].y <= |s.pcs[p].right|)
  {
    hide PairClaim, Target, MergeAll, RunsAfter, LockOwned;
    assert ClaimingPc(c, s, p, s.pcs[p]);
  }

  lemma KeepClaiming(c: Config, f0: seq<seq<Rec>>, s: State, p: nat)
    requires Valid(c) && Inv(c, f0, s) && PhaseOf(s.pcs[0]) == Claiming && CanMove(s, p) && VisitOk(s, Move(p))
    ensures Inv(c, f0, StepOf(c, s, p))
  {
    ClaimingKinds(c, f0, s, p);
    hide ClaimingInv, Common, StepClaim, StepMerge, VisitOk;
    if OnlyLocks(s.pcs[p]) {
      KeepClaim(c, f0, s, p);
    } else if s.pcs[p] == ClaimSet(s.runs) {
      KeepExtraSet(c, f0, s, p);
    } else if s.pcs[p].ClaimSet? {
      KeepClaimSet(c, f0, s, p);
    } else if s.pcs[p].Copy? {
      KeepCopy(c, f0, s, p);
    } else if s.pcs[p].x == |s.pcs[p].left| && s.pcs[p].y == |s.pcs[p].right| {
      KeepReturn(c, f0, s, p);
    } else {
      KeepStore(c, f0, s, p);
    }
    Reassemble(c, f0, s, StepOf(c, s, p), p, Claiming);
  }

  /** When everybody has reached the end of a round, every pair has been claimed and merged
      exactly once, and the window is one round further. */
  lemma RoundComplete(c: Config, f0: seq<seq<Rec>>, s: State)
    requires Valid(c) && ClaimingInv(c, f0, s) && forall p | 0 <= p < |s.pcs| :: s.pcs[p] == Wait(RoundEnd)
    ensures forall i | IsPair(s, i) :: Busy(s.claims, i) && s.log.merger[i].Some? && s.log.merges[i] == 1
    ensures s.file[s.at] == MergePairs(s.log.base, c.RunLen(s.runs))
  {
    hide Target, MergeAll, RunsAfter, LockOwned, MapShape, Pair, Blk, MergeSeq;
    assert ClaimingPc(c, s, 0, s.pcs[0]);
    var n := c.RunLen(s.runs);
    forall i | 0 <= i < s.runs && i % 2 == 0
      ensures Busy(s.claims, i) && s.log.merger[i].Some? && s.log.merges[i] == 1
      ensures Pair(s.file[s.at], n, i) == MergeSeq(Blk(s.log.base, n, i), Blk(s.log.base, n, i + 1))
    {
      assert PairClaim(c, s, i);
    }
    RunLenExact(c, s.log.rounds);
    RunsEven(c, s.log.rounds);
    AllPairsMerged(s.log.base, s.file[s.at], n, s.runs, 0);
    assert s.file[s.at][0..] == s.file[s.at] && s.log.base[0..] == s.log.base;
  }

  lemma OpenClaiming(c: Config, f0: seq<seq<Rec>>, s: State)
    requires Valid(c) && Inv(c, f0, s) && PhaseOf(s.pcs[0]) == Claiming && Enabled(s, Open)
    ensures Inv(c, f0, Next(c, s, Open))
  {
    var t := Next(c, s, Open);
    forall p | 0 <= p < |s.pcs|
      ensures s.pcs[p] == Wait(RoundEnd) && t.pcs[p] == MergeTest
    {
      assert PhaseOf(s.pcs[p]) == Claiming && s.pcs[p].Wait?;
    }
    RoundComplete(c, f0, s);
    assert MergeAll(s.log.base, s.runs) == MergeAll(s.file[s.at], s.runs / 2) by { hide MergePairs; }
    hide Target, MergeAll, RunsAfter, MergePairs, PairClaim, ClaimingPc;
    assert RoundsLeft(c, f0, t);
    RunsFacts(c, t.log.rounds);
    if t.runs > 4 {
      assert RoundComing(c, f0, t);
    } else {
      assert ChunkClosing(c, f0, t);
    }
  }
}
