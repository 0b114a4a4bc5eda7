/** The inductive invariant of the sort_index threads. All participants are always in the
    same phase of the program; each phase has its own facts about the claim map, the locks
    and the mapped window. */
module SortInvariant {
  import opened Base
  import opened Runs
  import opened Blocks
  import opened SortModel

  // ------------------------------------------------ what a finished chunk holds

  /** u is the window o with every block sorted once; block `amount`, which has an owner and
      is still free in the map, may have been sorted twice. */
  ghost predicate SortedBlocksOf(c: Config, o: seq<Rec>, u: seq<Rec>) {
    |u| == |o| == c.memsize &&
    forall i | 0 <= i < c.Blocks() ::
      var b := Blk(o, c.BlockLen(), i);
      Blk(u, c.BlockLen(), i) == c.qsort(b) || (i == c.amount && Blk(u, c.BlockLen(), i) == c.qsort(c.qsort(b)))
  }

  /** x is what bottom-up merging makes of the sorted blocks of o. */
  ghost predicate Target(c: Config, o: seq<Rec>, x: seq<Rec>) {
    exists u :: SortedBlocksOf(c, o, u) && x == MergeAll(u, c.Blocks())
  }

  // ------------------------------------------------------------------- phases

  datatype Phase = Opening | Sorting | Between | Halving | Claiming | Ended | Lost

  function PhaseOf(pc: Pc): Phase {
    match pc
    case LoopTest => Opening
    case InitMap => Opening
    case Wait(at) =>
      (match at
       case Start => Opening
       case BlocksSorted => Sorting
       case RoundOpen => Between
       case RoundGo => Halving
       case RoundEnd => Claiming
       case ChunkEnd => Between
       case Exit => Opening)
    case MarkOwn => Sorting
    case SortOwn => Sorting
    case ScanTest(_) => Sorting
    case ScanLock(_) => Sorting
    case ScanRecheck(_) => Sorting
    case ScanSet(_) => Sorting
    case ScanUnlock(_, _) => Sorting
    case ScanSort(_) => Sorting
    case InitMergeLock => Sorting
    case MergeTest => Between
    case Halve => Halving
    case ClaimTest(_) => Claiming
    case ClaimLock(_) => Claiming
    case ClaimCheck(_) => Claiming
    case ClaimSet(_) => Claiming
    case ClaimUnlock(_, _) => Claiming
    case Copy(_, _, back) => if back.LastMerge? then Between else Claiming
    case Store(_, _, back, _, _, _, _) => if back.LastMerge? then Between else Claiming
    case Advance => Between
    case Reset => Between
    case Done => Ended
    case Wild => Lost
  }

  ghost predicate InPhase(s: State, ph: Phase) {
    forall p | 0 <= p < |s.pcs| :: PhaseOf(s.pcs[p]) == ph
  }

  /** f0 is the file before the program ran. Finished windows hold their targets, windows
      not yet mapped are untouched. */
  ghost predicate Common(c: Config, f0: seq<seq<Rec>>, s: State) {
    && |s.pcs| == c.Threads() && |s.file| == |f0| && s.done == s.at <= |s.file|
    && (forall j | 0 <= j < |s.file| :: |f0[j]| == |s.file[j]| == c.memsize)
    && (forall j | 0 <= j < s.at :: Target(c, f0[j], s.file[j]))
    && (forall j | s.at < j < |s.file| :: s.file[j] == f0[j])
  }

  /** The window still to be worked on is untouched. */
  ghost predicate Untouched(f0: seq<seq<Rec>>, s: State) {
    |s.file| == |f0| && (s.at < |s.file| ==> s.file[s.at] == f0[s.at])
  }

  ghost predicate MapShape(c: Config, m: seq<Entry>) {
    |m| == c.Blocks() + 1 && forall i | 0 <= i < c.Blocks() :: m[i].block == i
  }

  // ------------------------------------------------------------------ Opening

  ghost predicate OpeningPc(s: State, p: nat, pc: Pc) {
    || pc == LoopTest
    || (pc == InitMap && p == 0 && s.at < |s.file|)
    || (pc == Wait(Start) && s.at < |s.file|)
    || (pc == Wait(Exit) && s.at == |s.file|)
  }

  ghost predicate MapReady(c: Config, s: State) {
    && s.claims == FreshMap(c) && s.sortLock.None?
    && s.log.claimer == seq(c.Blocks(), _ => None) && s.log.sorts == seq(c.Blocks(), _ => 0)
  }

  ghost predicate OpeningInv(c: Config, f0: seq<seq<Rec>>, s: State) {
    && s.pcs != [] && Untouched(f0, s) && s.runs == 2 * c.Blocks() && s.log.rounds == 0
    && (forall p | 0 <= p < |s.pcs| :: OpeningPc(s, p, s.pcs[p]))
    && (s.pcs[0] == Wait(Start) ==> MapReady(c, s))
  }

  // ------------------------------------------------------------------ Sorting

  ghost predicate BusyFrom(m: seq<Entry>, p: nat, i: nat) {
    forall j | p <= j < i :: Busy(m, j)
  }

  predicate HoldsSortLock(pc: Pc) {
    pc.ScanRecheck? || pc.ScanSet? || pc.ScanUnlock?
  }

  /** The participant has claimed block i and has not sorted it yet. */
  predicate SortPending(pc: Pc, i: nat) {
    pc == ScanUnlock(i, true) || pc == ScanSort(i)
  }

  predicate OwnDone(pc: Pc) {
    pc != MarkOwn && pc != SortOwn
  }

  ghost predicate SortingPc(c: Config, s: State, p: nat, pc: Pc)
    requires |s.log.claimer| == c.Blocks()
  {
    match pc
    case MarkOwn => true
    case SortOwn => Busy(s.claims, p)
    case ScanTest(i) => p <= i <= c.Blocks() && BusyFrom(s.claims, p, i)
    case ScanLock(i) => p <= i < c.Blocks() && BusyFrom(s.claims, p, i)
    case ScanRecheck(i) => p <= i < c.Blocks() && BusyFrom(s.claims, p, i)
    case ScanSet(i) => p <= i < c.Blocks() && BusyFrom(s.claims, p, i) && c.amount <= i && s.log.claimer[i].None?
    case ScanUnlock(i, mine) =>
      p <= i < c.Blocks() && BusyFrom(s.claims, p, i + 1) && (mine ==> s.log.claimer[i] == Some(p))
    case ScanSort(i) => p <= i < c.Blocks() && BusyFrom(s.claims, p, i + 1) && s.log.claimer[i] == Some(p)
    case InitMergeLock => p == 0 && BusyFrom(s.claims, p, c.Blocks())
    case Wait(at) => at == BlocksSorted && BusyFrom(s.claims, p, c.Blocks())
    case _ => false
  }

  ghost predicate BlockClaim(c: Config, s: State, i: nat)
    requires |s.pcs| == c.Threads() && |s.log.claimer| == |s.log.sorts| == c.Blocks() && i < c.Blocks()
  {
    && (i < c.amount ==> Busy(s.claims, i) && s.log.claimer[i].None?)
    && (s.log.claimer[i].Some? ==> Busy(s.claims, i) && s.log.claimer[i].value < |s.pcs|)
    && (Busy(s.claims, i) && s.log.claimer[i].None? ==> i <= c.amount && (i == c.amount ==> s.pcs[i] != MarkOwn))
    && s.log.sorts[i] ==
       (if i <= c.amount && OwnDone(s.pcs[i]) then 1 else 0) +
       (if s.log.claimer[i].Some? && !SortPending(s.pcs[s.log.claimer[i].value], i) then 1 else 0)
  }

  /** q applied t times. */
  ghost function Times(q: seq<Rec> -> seq<Rec>, b: seq<Rec>, t: nat): seq<Rec> {
    if t == 0 then b else q(Times(q, b, t - 1))
  }

  ghost predicate SortingWindow(c: Config, o: seq<Rec>, w: seq<Rec>, sorts: seq<nat>)
    requires |sorts| == c.Blocks()
  {
    |w| == c.memsize &&
    forall i | 0 <= i < c.Blocks() :: Blk(w, c.BlockLen(), i) == Times(c.qsort, Blk(o, c.BlockLen(), i), sorts[i])
  }

  ghost predicate LockOwned(s: State, lock: Option<nat>, holds: Pc -> bool) {
    && (lock.Some? ==> lock.value < |s.pcs| && holds(s.pcs[lock.value]))
    && (forall p | 0 <= p < |s.pcs| :: holds(s.pcs[p]) ==> lock == Some(p))
  }

  ghost predicate SortingInv(c: Config, f0: seq<seq<Rec>>, s: State) {
    && |s.pcs| == c.Threads() && s.at < |s.file| == |f0| && s.runs == 2 * c.Blocks() && s.log.rounds == 0
    && MapShape(c, s.claims) && s.claims[c.Blocks()] == c.over
    && |s.log.claimer| == |s.log.sorts| == c.Blocks()
    && (forall p | 0 <= p < |s.pcs| :: SortingPc(c, s, p, s.pcs[p]))
    && (forall i | 0 <= i < c.Blocks() :: BlockClaim(c, s, i))
    && SortingWindow(c, f0[s.at], s.file[s.at], s.log.sorts)
    && LockOwned(s, s.sortLock, HoldsSortLock)
    && (s.pcs[0].Wait? ==> s.mergeLock.None?)
  }

  // ------------------------------------------------------------------ Between

  /** BLOCKS after the given number of rounds. */
  function RunsAfter(c: Config, rounds: nat): nat {
    if rounds <= c.order + 1 then Pow2(c.order + 1 - rounds) else 0
  }

  /** A visit of the entry does nothing: it is busy, or names no run. */
  predicate Harmless(e: Entry) { e.isBusy || e.block == -1 }

  /** The act is not the extra visit i == BLOCKS of an entry that sends it to a merge. */
  predicate VisitOk(s: State, a: Act) {
    a.Move? && a.p < |s.pcs| && s.pcs[a.p] == ClaimCheck(s.runs) ==>
      s.runs < |s.claims| && Harmless(s.claims[s.runs])
  }

  /** The entry one past the last pair of this round: busy, or in the first round the word past
      the map as it was found. */
  ghost predicate VisitGuard(c: Config, s: State) {
    s.runs < |s.claims| && (s.claims[s.runs].isBusy || (s.runs == c.Blocks() && s.claims[s.runs] == c.over))
  }

  /** The entry the next round looks at one past its last pair is busy, or still as it was. */
  ghost predicate NextGuard(c: Config, s: State) {
    |s.claims| == c.Blocks() + 1 &&
    if s.log.rounds == 0 then s.claims[c.Blocks()] == c.over
    else forall i | 0 <= i < s.runs && i % 2 == 0 :: Busy(s.claims, i)
  }

  /** The window holds runs/2 runs that merge to the target. */
  ghost predicate RoundsLeft(c: Config, f0: seq<seq<Rec>>, s: State) {
    && s.at < |s.file| == |f0|
    && s.runs == RunsAfter(c, s.log.rounds) && s.runs >= 4 && s.log.rounds <= c.order - 1
    && Target(c, f0[s.at], MergeAll(s.file[s.at], s.runs / 2))
    && NextGuard(c, s)
  }

  /** A merge in progress: x records of the left run and y of the right one are written. */
  predicate Underway(pc: Pc) {
    pc.Store? && pc.x <= |pc.left| && pc.y <= |pc.right|
  }

  /** What it has still to write. */
  function MergeRest(pc: Pc): seq<Rec>
    requires Underway(pc)
  {
    MergeSeq(pc.left[pc.x..], pc.right[pc.y..])
  }

  /** Main on its way from the last round to the next chunk. */
  ghost predicate ClosingPc(c: Config, f0: seq<seq<Rec>>, s: State, pc: Pc) {
    match pc
    case MergeTest => RoundsLeft(c, f0, s) && s.runs == 4
    case Copy(no, runs, back) =>
      no == 0 && runs == 2 && back == LastMerge && RoundsLeft(c, f0, s) && s.runs == 4
    case Store(no, runs, back, left, right, x, y) =>
      && no == 0 && runs == 2 && back == LastMerge && s.runs == 4
      && s.at < |s.file| == |f0| && s.log.rounds == c.order - 1
      && |left| == |right| == c.RunLen(2) && Underway(pc) && x + y <= |s.file[s.at]|
      && Target(c, f0[s.at], s.file[s.at][..x + y] + MergeRest(pc))
    case Advance =>
      && s.runs == 4 && s.at < |s.file| == |f0| && s.log.rounds == c.order - 1
      && Target(c, f0[s.at], s.file[s.at])
    case Reset => s.runs == 4 && s.log.rounds == c.order - 1 && s.at > 0 && Untouched(f0, s)
    case Wait(at) => at == ChunkEnd && s.runs == 2 * c.Blocks() && s.log.rounds == 0 && s.at > 0 && Untouched(f0, s)
    case _ => false
  }

  /** Some round is still to come: everybody tests BLOCKS > 4 and goes on to the barrier. */
  ghost predicate RoundComing(c: Config, f0: seq<seq<Rec>>, s: State) {
    && RoundsLeft(c, f0, s) && s.runs > 4
    && (forall p | 0 <= p < |s.pcs| :: s.pcs[p] == MergeTest || s.pcs[p] == Wait(RoundOpen))
  }

  /** No round is left: workers go on to the barrier, main merges once more and moves on. */
  ghost predicate ChunkClosing(c: Config, f0: seq<seq<Rec>>, s: State) {
    && s.pcs != []
    && ClosingPc(c, f0, s, s.pcs[0])
    && (forall p | 0 < p < |s.pcs| :: s.pcs[p] == MergeTest || s.pcs[p] == Wait(ChunkEnd))
    && (s.pcs[0] == Wait(ChunkEnd) ==> forall p | 0 < p < |s.pcs| :: s.pcs[p] == Wait(ChunkEnd))
  }

  ghost predicate BetweenInv(c: Config, f0: seq<seq<Rec>>, s: State) {
    && MapShape(c, s.claims) && s.mergeLock.None?
    && (RoundComing(c, f0, s) || ChunkClosing(c, f0, s))
  }

  // ------------------------------------------------------------------ Halving

  /** Main has set the round up: half as many runs, no pair claimed, the guard in place. */
  ghost predicate RoundReady(c: Config, f0: seq<seq<Rec>>, s: State) {
    && s.at < |s.file| == |f0|
    && s.log.rounds >= 1 && s.runs == RunsAfter(c, s.log.rounds) && s.runs >= 4 && s.log.rounds <= c.order - 1
    && s.log.base == s.file[s.at]
    && Target(c, f0[s.at], MergeAll(s.log.base, s.runs))
    && s.log.merger == seq(s.runs, _ => None) && s.log.merges == seq(s.runs, _ => 0)
    && s.runs <= c.Blocks() && |s.claims| == c.Blocks() + 1
    && (forall i | 0 <= i < s.runs :: !s.claims[i].isBusy)
    && VisitGuard(c, s)
  }

  ghost predicate HalvingInv(c: Config, f0: seq<seq<Rec>>, s: State) {
    && MapShape(c, s.claims) && s.mergeLock.None?
    && (forall p | 0 <= p < |s.pcs| :: s.pcs[p] == Halve || s.pcs[p] == Wait(RoundGo))
    && s.pcs != []
    && (s.pcs[0] == Halve ==> RoundsLeft(c, f0, s) && s.runs > 4)
    && (s.pcs[0] == Wait(RoundGo) ==> RoundReady(c, f0, s))
  }

  // ----------------------------------------------------------------- Claiming

  ghost predicate EvenBusy(s: State, i: nat) {
    forall j | 0 <= j < i && j % 2 == 0 && j <= s.runs :: Busy(s.claims, j)
  }

  predicate HoldsMergeLock(pc: Pc) {
    pc.ClaimCheck? || pc.ClaimSet? || pc.ClaimUnlock?
  }

  /** The participant has claimed pair i and has not finished merging it. */
  predicate MergePending(pc: Pc, i: nat) {
    match pc
    case ClaimUnlock(_, sav) => sav == i
    case Copy(sav, _, _) => sav == i
    case Store(no, _, _, _, _, _, _) => no == i
    case _ => false
  }

  /** i is the first index of a pair of this round. */
  predicate IsPair(s: State, i: int) {
    0 <= i < s.runs && i % 2 == 0
  }

  ghost predicate ClaimingPc(c: Config, s: State, p: nat, pc: Pc)
    requires |s.log.merger| == s.runs
  {
    match pc
    case ClaimTest(i) => i % 2 == 0 && i <= s.runs + 2 && EvenBusy(s, i)
    case ClaimLock(i) => i % 2 == 0 && i <= s.runs && EvenBusy(s, i)
    case ClaimCheck(i) => i % 2 == 0 && i <= s.runs && EvenBusy(s, i)
    case ClaimSet(i) =>
      EvenBusy(s, i) && (if i == s.runs then i < |s.claims| && s.claims[i].block == -1
                         else IsPair(s, i) && s.log.merger[i].None?)
    case ClaimUnlock(i, sav) =>
      && i % 2 == 0 && i <= s.runs && EvenBusy(s, i + 2)
      && (sav != -1 ==> sav == i && IsPair(s, i) && s.log.merger[i] == Some(p))
    case Copy(sav, runs, back) =>
      && back.ClaimLoop? && sav == back.i && runs == s.runs
      && IsPair(s, sav) && EvenBusy(s, sav + 2) && s.log.merger[sav] == Some(p)
    case Store(no, runs, back, left, right, x, y) =>
      && back.ClaimLoop? && no == back.i && runs == s.runs
      && IsPair(s, no) && EvenBusy(s, no + 2) && s.log.merger[no] == Some(p)
      && left == Blk(s.log.base, c.RunLen(s.runs), no)
      && right == Blk(s.log.base, c.RunLen(s.runs), no + 1)
      && x <= |left| && y <= |right|
    case Wait(at) => at == RoundEnd && EvenBusy(s, s.runs + 1)
    case _ => false
  }

  /** The records of pair i that have been written, followed by what the participant at pc
      has still to write. */
  ghost function Merged(c: Config, s: State, pc: Pc, i: nat): seq<Rec>
    requires s.at < |s.file|
  {
    var w := Pair(s.file[s.at], c.RunLen(s.runs), i);
    if Underway(pc) && pc.no == i && pc.x + pc.y <= |w| then w[..pc.x + pc.y] + MergeRest(pc) else w
  }

  ghost predicate PairClaim(c: Config, s: State, i: nat)
    requires s.at < |s.file| && |s.log.merger| == |s.log.merges| == s.runs && i < s.runs
  {
    var n := c.RunLen(s.runs);
    var goal := MergeSeq(Blk(s.log.base, n, i), Blk(s.log.base, n, i + 1));
    && (Busy(s.claims, i) <==> s.log.merger[i].Some?)
    && match s.log.merger[i]
       case None => s.log.merges[i] == 0 && Pair(s.file[s.at], n, i) == Pair(s.log.base, n, i)
       case Some(p) =>
         && p < |s.pcs|
         && (if MergePending(s.pcs[p], i) then
               && s.log.merges[i] == 0
               && (if s.pcs[p].Store? then Merged(c, s, s.pcs[p], i) == goal
                   else Pair(s.file[s.at], n, i) == Pair(s.log.base, n, i))
             else s.log.merges[i] == 1 && Pair(s.file[s.at], n, i) == goal)
  }

  ghost predicate ClaimingInv(c: Config, f0: seq<seq<Rec>>, s: State) {
    && s.pcs != [] && s.at < |s.file| == |f0| && |s.file[s.at]| == |s.log.base| == c.memsize
    && MapShape(c, s.claims) && s.runs <= c.Blocks()
    && s.log.rounds >= 1 && s.runs == RunsAfter(c, s.log.rounds) && s.runs >= 4 && s.log.rounds <= c.order - 1
    && |s.log.merger| == |s.log.merges| == s.runs
    && Target(c, f0[s.at], MergeAll(s.log.base, s.runs))
    && VisitGuard(c, s)
    && (forall p | 0 <= p < |s.pcs| :: ClaimingPc(c, s, p, s.pcs[p]))
    && (forall i | 0 <= i < s.runs && i % 2 == 0 :: PairClaim(c, s, i))
    && LockOwned(s, s.mergeLock, HoldsMergeLock)
  }

  // ------------------------------------------------------------ the invariant

  ghost predicate PhaseInv(c: Config, f0: seq<seq<Rec>>, s: State, ph: Phase) {
    match ph
    case Opening => OpeningInv(c, f0, s)
    case Sorting => SortingInv(c, f0, s)
    case Between => BetweenInv(c, f0, s)
    case Halving => HalvingInv(c, f0, s)
    case Claiming => ClaimingInv(c, f0, s)
    case Ended => s.at == |s.file|
    case Lost => false
  }

  ghost predicate Inv(c: Config, f0: seq<seq<Rec>>, s: State) {
    && Common(c, f0, s)
    && InPhase(s, PhaseOf(s.pcs[0]))
    && PhaseInv(c, f0, s, PhaseOf(s.pcs[0]))
  }
}
