/** Every step keeps the invariant, phase by phase. */
module SortSteps {
  import opened Base
  import opened Runs
  import opened Blocks
  import opened SortModel
  import opened SortInvariant

  /** The word past the claim map reads as a harmless entry: what the first merge round relies
      on. */
  ghost predicate Guarded(c: Config) {
    Valid(c) && Harmless(c.over)
  }

  lemma RunsFacts(c: Config, rounds: nat)
    requires Valid(c)
    ensures c.order >= 4 && c.Blocks() >= 16
    ensures rounds <= c.order && RunsAfter(c, rounds) > 4 ==>
      && RunsAfter(c, rounds) / 2 == RunsAfter(c, rounds + 1) && RunsAfter(c, rounds + 1) >= 4
      && RunsAfter(c, rounds + 1) % 2 == 0 && rounds + 1 <= c.order - 1
      && RunsAfter(c, rounds + 1) <= c.Blocks()
    ensures rounds <= c.order - 1 && RunsAfter(c, rounds) == 4 ==> rounds == c.order - 1
    ensures RunsAfter(c, 0) == 2 * c.Blocks()
  {
    if c.order < 4 {
      Pow2Monotone(c.order, 4);
    }
    if c.order > 4 {
      Pow2Monotone(4, c.order);
    }
    assert Pow2(4) == 16;
    assert Pow2(2) == 4;
    if rounds <= c.order {
      var k := c.order + 1 - rounds;
      if k == 1 {
        assert Pow2(k) == 2;
      } else if k > 2 {
        Pow2Monotone(2, k);
        if k > 3 {
          Pow2Monotone(2, k - 1);
        }
      }
      if k - 1 < c.order {
        Pow2Monotone(k - 1, c.order);
      }
    }
  }

  /** BLOCKS divides memsize in every round. */
  lemma RunLenExact(c: Config, rounds: nat)
    requires Valid(c) && 1 <= rounds <= c.order
    ensures RunsAfter(c, rounds) >= 1
    ensures c.memsize == RunsAfter(c, rounds) * c.RunLen(RunsAfter(c, rounds)) && c.RunLen(RunsAfter(c, rounds)) > 0
  {
    Pow2Divides(c.memsize, c.order + 1 - rounds, c.order);
    var d := RunsAfter(c, rounds);
    assert c.memsize == d * (c.memsize / d);
  }

  // ------------------------------------------------- the part common to all phases

  /** Participant p moved inside phase ph, and no window but the mapped one changed. */
  ghost predicate LocalStep(c: Config, s: State, t: State, p: nat, ph: Phase) {
    && p < |s.pcs| && |t.pcs| == |s.pcs| && t.pcs == s.pcs[p := t.pcs[p]] && PhaseOf(t.pcs[p]) == ph
    && t.at == s.at && t.done == s.done && |t.file| == |s.file|
    && (forall j | 0 <= j < |s.file| :: j != s.at ==> t.file[j] == s.file[j])
    && (s.at < |s.file| ==> |t.file[s.at]| == |s.file[s.at]|)
  }

  lemma Reassemble(c: Config, f0: seq<seq<Rec>>, s: State, t: State, p: nat, ph: Phase)
    requires Inv(c, f0, s) && PhaseOf(s.pcs[0]) == ph && LocalStep(c, s, t, p, ph)
    requires PhaseInv(c, f0, t, ph)
    ensures Inv(c, f0, t)
  {
    hide PhaseInv, Target;
  }

  // ------------------------------------------------------------------ Opening

  lemma KeepOpening(c: Config, f0: seq<seq<Rec>>, s: State, p: nat)
    requires Valid(c) && Inv(c, f0, s) && PhaseOf(s.pcs[0]) == Opening && CanMove(s, p)
    ensures Inv(c, f0, StepOf(c, s, p))
  {
    hide Target;
    assert OpeningPc(s, p, s.pcs[p]);
    var t := StepOf(c, s, p);
    assert t == StepLoop(c, s, p);
    assert forall q | 0 <= q < |t.pcs| :: q == p || t.pcs[q] == s.pcs[q];
  }

  lemma OpenOpening(c: Config, f0: seq<seq<Rec>>, s: State)
    requires Valid(c) && Inv(c, f0, s) && PhaseOf(s.pcs[0]) == Opening && Enabled(s, Open)
    ensures Inv(c, f0, Next(c, s, Open))
  {
    hide Target;
    var t := Next(c, s, Open);
    assert forall q | 0 <= q < |s.pcs| :: OpeningPc(s, q, s.pcs[q]) && s.pcs[q].Wait?;
    if s.at < |s.file| {
      assert forall q | 0 <= q < |s.pcs| :: s.pcs[q] == Wait(Start);
      assert forall q | 0 <= q < |t.pcs| :: t.pcs[q] == MarkOwn;
      forall i | 0 <= i < c.Blocks()
        ensures BlockClaim(c, t, i)
      {
        assert t.log.claimer[i] == None && t.log.sorts[i] == 0;
      }
      assert SortingInv(c, f0, t);
    } else {
      assert forall q | 0 <= q < |t.pcs| :: t.pcs[q] == Done;
    }
  }

  // ------------------------------------------------------------------ Sorting

  /** t is s with participant p one step on and map entry k marked busy; `claimer` is the
      log's record of it. */
  ghost predicate MarkedBy(s: State, t: State, p: nat, k: nat, pc: Pc, claimer: seq<Option<nat>>) {
    && p < |s.pcs|
    && t == s.(pcs := s.pcs[p := pc], claims := SetBusy(s.claims, k), log := s.log.(claimer := claimer))
  }

  lemma MarkKeepsBusy(m: seq<Entry>, k: nat)
    requires k < |m|
    ensures forall j: nat :: Busy(SetBusy(m, k), j) <==> (j == k || Busy(m, j))
  {
  }

  lemma MarkOwnPcs(c: Config, f0: seq<seq<Rec>>, s: State, t: State, p: nat)
    requires Valid(c) && SortingInv(c, f0, s) && MarkedBy(s, t, p, p, SortOwn, s.log.claimer)
    ensures forall q | 0 <= q < |t.pcs| :: SortingPc(c, t, q, t.pcs[q])
  {
    hide LockOwned, SortingWindow, BlockClaim;
    MarkKeepsBusy(s.claims, p);
    hide SetBusy;
    forall q | 0 <= q < |t.pcs|
      ensures SortingPc(c, t, q, t.pcs[q])
    {
      assert SortingPc(c, s, q, s.pcs[q]);
    }
  }

  lemma MarkOwnClaims(c: Config, f0: seq<seq<Rec>>, s: State, t: State, p: nat)
    requires Valid(c) && SortingInv(c, f0, s) && s.pcs != [] && MarkedBy(s, t, p, p, SortOwn, s.log.claimer)
    requires s.pcs[p] == MarkOwn
    ensures forall i | 0 <= i < c.Blocks() :: BlockClaim(c, t, i)
  {
    hide LockOwned, SortingWindow, SortingPc;
    MarkKeepsBusy(s.claims, p);
    hide SetBusy, Busy;
    forall i | 0 <= i < c.Blocks()
      ensures BlockClaim(c, t, i)
    {
      assert BlockClaim(c, s, i);
    }
  }

  lemma KeepMarkOwn(c: Config, f0: seq<seq<Rec>>, s: State, p: nat)
    requires Valid(c) && SortingInv(c, f0, s) && p < |s.pcs| && s.pcs[p] == MarkOwn
    ensures SortingInv(c, f0, StepSort(c, s, p)) && LocalStep(c, s, StepSort(c, s, p), p, Sorting)
  {
    var t := StepSort(c, s, p);
    assert MarkedBy(s, t, p, p, SortOwn, s.log.claimer);
    hide StepSort, BlockClaim, SortingPc, SortingWindow;
    MarkOwnPcs(c, f0, s, t, p);
    MarkOwnClaims(c, f0, s, t, p);
  }

  /** Steps of the scan that move only the pc and a lock. */
  predicate Scans(pc: Pc) {
    pc.ScanTest? || pc.ScanLock? || pc.ScanRecheck? || pc.ScanUnlock? || pc.InitMergeLock?
  }

  /** The scanning participant's own facts after a step that moves only its pc and a lock. */
  lemma ScanSelf(c: Config, f0: seq<seq<Rec>>, s: State, p: nat)
    requires SortingInv(c, f0, s) && CanMove(s, p)
    requires Scans(s.pcs[p])
    ensures var t := StepSort(c, s, p);
      && SortingPc(c, t, p, t.pcs[p]) && OwnDone(t.pcs[p])
      && (forall i | 0 <= i < c.Blocks() :: SortPending(t.pcs[p], i) == SortPending(s.pcs[p], i))
      && (p == 0 && t.pcs[p].Wait? ==> t.mergeLock.None?)
  {
    hide SortingWindow, LockOwned;
    assert SortingPc(c, s, p, s.pcs[p]);
    if s.pcs[p].ScanRecheck? && !Busy(s.claims, s.pcs[p].i) {
      assert BlockClaim(c, s, s.pcs[p].i);
    }
  }

  lemma ScanLocks(c: Config, f0: seq<seq<Rec>>, s: State, p: nat)
    requires SortingInv(c, f0, s) && CanMove(s, p)
    requires Scans(s.pcs[p])
    ensures var t := StepSort(c, s, p);
      && LockOwned(t, t.sortLock, HoldsSortLock)
      && LocalStep(c, s, t, p, Sorting)
      && t == s.(pcs := t.pcs, sortLock := t.sortLock, mergeLock := t.mergeLock)
  {
    hide SortingPc, SortingWindow, BlockClaim;
  }

  /** Nobody else's facts depend on where p is or who holds a lock. */
  lemma ScanOthers(c: Config, f0: seq<seq<Rec>>, s: State, t: State, p: nat)
    requires SortingInv(c, f0, s) && p < |s.pcs| && |t.pcs| == |s.pcs|
    requires t == s.(pcs := s.pcs[p := t.pcs[p]], sortLock := t.sortLock, mergeLock := t.mergeLock)
    requires SortingPc(c, t, p, t.pcs[p])
    ensures forall q | 0 <= q < |t.pcs| :: SortingPc(c, t, q, t.pcs[q])
  {
    hide BlockClaim, LockOwned, SortingWindow, MapShape;
    forall q | 0 <= q < |t.pcs|
      ensures SortingPc(c, t, q, t.pcs[q])
    {
      assert SortingPc(c, s, q, s.pcs[q]);
    }
  }

  lemma ScanClaims(c: Config, f0: seq<seq<Rec>>, s: State, t: State, p: nat)
    requires SortingInv(c, f0, s) && p < |s.pcs| && |t.pcs| == |s.pcs|
    requires t == s.(pcs := s.pcs[p := t.pcs[p]], sortLock := t.sortLock, mergeLock := t.mergeLock)
    requires OwnDone(s.pcs[p]) && OwnDone(t.pcs[p])
    requires forall i | 0 <= i < c.Blocks() :: SortPending(t.pcs[p], i) == SortPending(s.pcs[p], i)
    ensures forall i | 0 <= i < c.Blocks() :: BlockClaim(c, t, i)
  {
    hide SortingPc, LockOwned, SortingWindow, MapShape;
    forall i | 0 <= i < c.Blocks()
      ensures BlockClaim(c, t, i)
    {
      assert BlockClaim(c, s, i);
    }
  }

  lemma KeepScan(c: Config, f0: seq<seq<Rec>>, s: State, p: nat)
    requires SortingInv(c, f0, s) && CanMove(s, p)
    requires Scans(s.pcs[p])
    ensures SortingInv(c, f0, StepSort(c, s, p)) && LocalStep(c, s, StepSort(c, s, p), p, Sorting)
  {
    var t := StepSort(c, s, p);
    ScanSelf(c, f0, s, p);
    ScanLocks(c, f0, s, p);
    assert t.pcs == s.pcs[p := t.pcs[p]];
    hide SortingPc, BlockClaim, SortingWindow, StepSort, LockOwned, MapShape;
    ScanOthers(c, f0, s, t, p);
    ScanClaims(c, f0, s, t, p);
    hide LocalStep;
  }

  lemma ScanSetPcs(c: Config, f0: seq<seq<Rec>>, s: State, t: State, p: nat, k: nat)
    requires SortingInv(c, f0, s) && p < |s.pcs| && s.pcs[p] == ScanSet(k) && k < c.Blocks()
    requires MarkedBy(s, t, p, k, ScanUnlock(k, true), s.log.claimer[k := Some(p)])
    ensures forall q | 0 <= q < |t.pcs| :: SortingPc(c, t, q, t.pcs[q])
  {
    hide SortingWindow, BlockClaim;
    MarkKeepsBusy(s.claims, k);
    hide SetBusy;
    assert SortingPc(c, s, p, s.pcs[p]);
    forall q | 0 <= q < |t.pcs|
      ensures SortingPc(c, t, q, t.pcs[q])
    {
      assert SortingPc(c, s, q, s.pcs[q]);
      assert q != p ==> !HoldsSortLock(s.pcs[q]);
    }
  }

  lemma ScanSetClaims(c: Config, f0: seq<seq<Rec>>, s: State, t: State, p: nat, k: nat)
    requires SortingInv(c, f0, s) && p < |s.pcs| && s.pcs[p] == ScanSet(k) && k < c.Blocks()
    requires MarkedBy(s, t, p, k, ScanUnlock(k, true), s.log.claimer[k := Some(p)])
    ensures forall i | 0 <= i < c.Blocks() :: BlockClaim(c, t, i)
  {
    hide SortingWindow, LockOwned;
    MarkKeepsBusy(s.claims, k);
    assert SortingPc(c, s, p, s.pcs[p]);
    hide SetBusy, Busy, SortingPc;
    forall i | 0 <= i < c.Blocks()
      ensures BlockClaim(c, t, i)
    {
      assert BlockClaim(c, s, i);
    }
  }

  lemma ScanSetEffect(c: Config, f0: seq<seq<Rec>>, s: State, p: nat, k: nat)
    requires SortingInv(c, f0, s) && p < |s.pcs| && s.pcs[p] == ScanSet(k)
    ensures k < c.Blocks()
    ensures MarkedBy(s, StepSort(c, s, p), p, k, ScanUnlock(k, true), s.log.claimer[k := Some(p)])
  {
    hide BlockClaim, SortingWindow, LockOwned;
    assert SortingPc(c, s, p, s.pcs[p]);
  }

  lemma KeepScanSet(c: Config, f0: seq<seq<Rec>>, s: State, p: nat)
    requires Valid(c) && SortingInv(c, f0, s) && p < |s.pcs| && s.pcs[p].ScanSet?
    ensures SortingInv(c, f0, StepSort(c, s, p)) && LocalStep(c, s, StepSort(c, s, p), p, Sorting)
  {
    var t, k := StepSort(c, s, p), s.pcs[p].i;
    ScanSetEffect(c, f0, s, p, k);
    hide StepSort, BlockClaim, SortingPc, SortingWindow;
    ScanSetPcs(c, f0, s, t, p, k);
    ScanSetClaims(c, f0, s, t, p, k);
  }

  /** Participant p is about to sort block k. */
  predicate Sorts(s: State, p: nat, k: nat) {
    p < |s.pcs| && (s.pcs[p] == ScanSort(k) || (s.pcs[p] == SortOwn && k == p))
  }

  /** t is s after participant p has sorted block k: the window, the count of the block and
      the pc of p have changed. */
  ghost predicate SortedBy(c: Config, s: State, t: State, p: nat, k: nat) {
    && p < |s.pcs| && k < |s.log.sorts| && s.at < |s.file|
    && t == s.(
         pcs := s.pcs[p := ScanTest(if s.pcs[p].SortOwn? then p else k + 1)],
         file := s.file[s.at := SetBlk(s.file[s.at], c.BlockLen(), k, c.qsort(Blk(s.file[s.at], c.BlockLen(), k)))],
         log := s.log.(sorts := s.log.sorts[k := s.log.sorts[k] + 1]))
  }

  lemma SortedEffect(c: Config, f0: seq<seq<Rec>>, s: State, p: nat, k: nat)
    requires Valid(c) && SortingInv(c, f0, s) && p < |s.pcs|
    requires Sorts(s, p, k)
    ensures k < c.Blocks() && SortedBy(c, s, StepSort(c, s, p), p, k)
  {
    hide BlockClaim, LockOwned, SortingWindow, Blk, SetBlk;
    assert SortingPc(c, s, p, s.pcs[p]);
  }

  lemma SortedPcs(c: Config, f0: seq<seq<Rec>>, s: State, t: State, p: nat, k: nat)
    requires SortingInv(c, f0, s) && SortedBy(c, s, t, p, k)
    requires Sorts(s, p, k)
    ensures forall q | 0 <= q < |t.pcs| :: SortingPc(c, t, q, t.pcs[q])
  {
    hide BlockClaim, LockOwned, SortingWindow, Blk, SetBlk;
    assert SortingPc(c, s, p, s.pcs[p]);
    forall q | 0 <= q < |t.pcs|
      ensures SortingPc(c, t, q, t.pcs[q])
    {
      assert SortingPc(c, s, q, s.pcs[q]);
    }
  }

  lemma SortedClaims(c: Config, f0: seq<seq<Rec>>, s: State, t: State, p: nat, k: nat)
    requires SortingInv(c, f0, s) && SortedBy(c, s, t, p, k) && |t.pcs| == c.Threads()
    requires Sorts(s, p, k)
    requires |t.log.claimer| == |t.log.sorts| == c.Blocks()
    ensures forall i | 0 <= i < c.Blocks() :: BlockClaim(c, t, i)
  {
    hide LockOwned, SortingWindow, Blk, SetBlk, BusyFrom;
    assert SortingPc(c, s, p, s.pcs[p]);
    forall i | 0 <= i < c.Blocks()
      ensures BlockClaim(c, t, i)
    {
      assert BlockClaim(c, s, i);
    }
  }

  lemma SortedLocks(c: Config, f0: seq<seq<Rec>>, s: State, t: State, p: nat, k: nat)
    requires SortingInv(c, f0, s) && SortedBy(c, s, t, p, k)
    requires Sorts(s, p, k)
    requires |SetBlk(s.file[s.at], c.BlockLen(), k, c.qsort(Blk(s.file[s.at], c.BlockLen(), k)))| == |s.file[s.at]|
    ensures LockOwned(t, t.sortLock, HoldsSortLock) && LocalStep(c, s, t, p, Sorting)
  {
    hide BlockClaim, SortingPc, SortingWindow, Blk, SetBlk, MapShape;
  }

  /** A participant is done with its own block, or with one it claimed. */
  lemma KeepSorted(c: Config, f0: seq<seq<Rec>>, s: State, p: nat, k: nat)
    requires Valid(c) && SortingInv(c, f0, s) && Sorts(s, p, k)
    ensures SortingInv(c, f0, StepSort(c, s, p)) && LocalStep(c, s, StepSort(c, s, p), p, Sorting)
  {
    var t := StepSort(c, s, p);
    SortedEffect(c, f0, s, p, k);
    hide StepSort, SetBlk, Blk, SortingPc, BlockClaim, LockOwned, MapShape;
    SortOneMore(c, f0[s.at], s.file[s.at], s.log.sorts, k);
    SortedLength(c, f0[s.at], s.file[s.at], s.log.sorts);
    SortedLength(c, f0[s.at], t.file[t.at], t.log.sorts);
    hide SortingWindow, Sorts;
    SortedPcs(c, f0, s, t, p, k);
    SortedClaims(c, f0, s, t, p, k);
    SortedLocks(c, f0, s, t, p, k);
    hide LocalStep;
  }

  lemma SortedLength(c: Config, o: seq<Rec>, w: seq<Rec>, sorts: seq<nat>)
    requires |sorts| == c.Blocks() && SortingWindow(c, o, w, sorts)
    ensures |w| == c.memsize
  {
  }

  lemma KeepSorting(c: Config, f0: seq<seq<Rec>>, s: State, p: nat)
    requires Valid(c) && Inv(c, f0, s) && PhaseOf(s.pcs[0]) == Sorting && CanMove(s, p)
    ensures Inv(c, f0, StepOf(c, s, p))
  {
    assert PhaseOf(s.pcs[p]) == Sorting;
    assert StepOf(c, s, p) == StepSort(c, s, p);
    hide SortingInv, Common, StepSort;
    if s.pcs[p] == MarkOwn {
      KeepMarkOwn(c, f0, s, p);
    } else if s.pcs[p].ScanSet? {
      KeepScanSet(c, f0, s, p);
    } else if s.pcs[p].SortOwn? || s.pcs[p].ScanSort? {
      KeepSorted(c, f0, s, p, if s.pcs[p].SortOwn? then p else s.pcs[p].i);
    } else {
      KeepScan(c, f0, s, p);
    }
    Reassemble(c, f0, s, StepOf(c, s, p), p, Sorting);
  }

  lemma SortOneMore(c: Config, o: seq<Rec>, w: seq<Rec>, sorts: seq<nat>, k: nat)
    requires Valid(c) && |sorts| == c.Blocks() && k < c.Blocks() && SortingWindow(c, o, w, sorts)
    ensures SortingWindow(c, o, SetBlk(w, c.BlockLen(), k, c.qsort(Blk(w, c.BlockLen(), k))), sorts[k := sorts[k] + 1])
  {
    BlockLenExact(c);
    var n := c.BlockLen();
    var r := c.qsort(Blk(w, n, k));
    BlkLength(w, n, c.Blocks(), k);
    assert |r| == n by { QsortLength(c, Blk(w, n, k)); }
    forall i | 0 <= i < c.Blocks()
      ensures Blk(SetBlk(w, n, k, r), n, i) == Times(c.qsort, Blk(o, n, i), sorts[k := sorts[k] + 1][i])
    {
      SetBlkSplit(w, n, c.Blocks(), k, i, r);
    }
    SetBlkSplit(w, n, c.Blocks(), k, k, r);
  }

  lemma QsortLength(c: Config, b: seq<Rec>)
    requires Valid(c)
    ensures |c.qsort(b)| == |b| && multiset(c.qsort(b)) == multiset(b) && Sorted(c.qsort(b))
  {
    assert |multiset(c.qsort(b))| == |multiset(b)|;
  }

  lemma BlockLenExact(c: Config)
    requires Valid(c)
    ensures c.memsize == c.Blocks() * c.BlockLen() && c.BlockLen() > 0
  {
    var d := c.Blocks();
    assert c.memsize == d * (c.memsize / d);
  }

  /** All participants have scanned the map: every block is sorted, and only block `amount`
      can have been sorted twice. */
  lemma SortingComplete(c: Config, f0: seq<seq<Rec>>, s: State)
    requires Valid(c) && SortingInv(c, f0, s) && forall p | 0 <= p < |s.pcs| :: s.pcs[p] == Wait(BlocksSorted)
    ensures forall i | 0 <= i < c.Blocks() :: s.log.sorts[i] == 1 || (i == c.amount && s.log.sorts[i] == 2)
    ensures forall i | 0 <= i < c.Blocks() && s.log.sorts[i] == 2 :: s.log.claimer[i].Some?
  {
    assert SortingPc(c, s, 0, s.pcs[0]);
    forall i | 0 <= i < c.Blocks()
      ensures s.log.sorts[i] == 1 || (i == c.amount && s.log.sorts[i] == 2)
      ensures s.log.sorts[i] == 2 ==> s.log.claimer[i].Some?
    {
      assert BlockClaim(c, s, i);
    }
  }

  lemma SortedWindow(c: Config, o: seq<Rec>, w: seq<Rec>, sorts: seq<nat>)
    requires Valid(c) && |sorts| == c.Blocks() && SortingWindow(c, o, w, sorts) && |o| == c.memsize
    requires forall i | 0 <= i < c.Blocks() :: sorts[i] == 1 || (i == c.amount && sorts[i] == 2)
    ensures SortedBlocksOf(c, o, w) && Target(c, o, MergeAll(w, c.Blocks()))
  {
    hide MergeAll, Blk;
    forall i | 0 <= i < c.Blocks()
      ensures var b := Blk(o, c.BlockLen(), i);
        Blk(w, c.BlockLen(), i) == c.qsort(b) || (i == c.amount && Blk(w, c.BlockLen(), i) == c.qsort(c.qsort(b)))
    {
      var b := Blk(o, c.BlockLen(), i);
      assert Times(c.qsort, b, 0) == b;
      assert Times(c.qsort, b, 1) == c.qsort(b);
      assert Times(c.qsort, b, 2) == c.qsort(Times(c.qsort, b, 1));
    }
  }

  lemma OpenSorting(c: Config, f0: seq<seq<Rec>>, s: State)
    requires Valid(c) && Inv(c, f0, s) && PhaseOf(s.pcs[0]) == Sorting && Enabled(s, Open)
    ensures Inv(c, f0, Next(c, s, Open))
  {
    hide MergeAll;
    var t := Next(c, s, Open);
    forall p | 0 <= p < |s.pcs|
      ensures s.pcs[p] == Wait(BlocksSorted) && t.pcs[p] == MergeTest
    {
      assert PhaseOf(s.pcs[p]) == Sorting && s.pcs[p].Wait?;
    }
    SortingComplete(c, f0, s);
    SortedWindow(c, f0[s.at], s.file[s.at], s.log.sorts);
    hide Target;
    RunsFacts(c, 0);
    assert RoundComing(c, f0, t);
  }
}
