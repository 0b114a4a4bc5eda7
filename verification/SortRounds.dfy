/** The invariant through the merge rounds and main's last merge. */
module SortRounds {
  import opened Base
  import opened Runs
  import opened Blocks
  import opened SortModel
  import opened SortInvariant
  import opened SortSteps

  // ------------------------------------------------------------------ Between

  lemma KeepMergeTest(c: Config, f0: seq<seq<Rec>>, s: State, p: nat)
    requires Valid(c) && BetweenInv(c, f0, s) && p < |s.pcs| && s.pcs[p] == MergeTest
    ensures BetweenInv(c, f0, StepChunk(c, s, p)) && LocalStep(c, s, StepChunk(c, s, p), p, Between)
  {
    hide Target, MergeAll, MergeSeq, RunsAfter, MapShape;
    var t := StepChunk(c, s, p);
    if RoundComing(c, f0, s) {
      assert RoundComing(c, f0, t);
    } else {
      assert ChunkClosing(c, f0, t);
    }
  }

  /** The last merge copies the two halves of the window. */
  lemma LastMergeStarts(c: Config, w: seq<Rec>)
    requires Valid(c) && |w| == c.memsize
    ensures var n := c.RunLen(2);
      && c.memsize == 2 * n && |Blk(w, n, 0)| == |Blk(w, n, 1)| == n
      && MergeAll(w, 2) == w[..0] + MergeSeq(Blk(w, n, 0)[0..], Blk(w, n, 1)[0..])
  {
    RunLenExact(c, c.order);
    var n := c.RunLen(2);
    BlkLength(w, n, 2, 0);
    BlkLength(w, n, 2, 1);
    QuotientUnique(|w|, 2, n);
    assert w[2 * n..] == [];
    assert MergePairs(w, n) == MergeSeq(w[..n], w[n..2 * n]) + [];
    assert MergeAll(MergePairs(w, n), 1) == MergePairs(w, n);
    assert w[..n] == Blk(w, n, 0) && w[n..2 * n] == Blk(w, n, 1);
  }

  /** Main moves on inside the closing of a chunk; the workers are where they were. */
  lemma MainMoves(c: Config, f0: seq<seq<Rec>>, s: State, t: State, w: seq<Rec>)
    requires Common(c, f0, s) && BetweenInv(c, f0, s) && !RoundComing(c, f0, s)
    requires s.pcs[0] != Wait(ChunkEnd) && |t.pcs| == |s.pcs|
    requires s.at < |s.file| && |w| == c.memsize
    requires t == s.(pcs := s.pcs[0 := t.pcs[0]], file := s.file[s.at := w])
    requires ClosingPc(c, f0, t, t.pcs[0]) && t.pcs[0] != Wait(ChunkEnd)
    ensures BetweenInv(c, f0, t) && LocalStep(c, s, t, 0, Between)
  {
    hide Target, MergeAll, MergeSeq, RunsAfter, NextGuard, MapShape, RoundsLeft, Untouched;
    assert PhaseOf(t.pcs[0]) == Between;
    hide ClosingPc;
    assert ChunkClosing(c, f0, t);
  }

  lemma ClosingOnly(c: Config, f0: seq<seq<Rec>>, s: State)
    requires BetweenInv(c, f0, s) && s.pcs != [] && !s.pcs[0].MergeTest? && !s.pcs[0].Wait?
    ensures ClosingPc(c, f0, s, s.pcs[0]) && !RoundComing(c, f0, s)
  {
    hide ClosingPc;
  }

  lemma MainOnly(c: Config, f0: seq<seq<Rec>>, s: State, p: nat)
    requires BetweenInv(c, f0, s) && p < |s.pcs| && !s.pcs[p].MergeTest? && !s.pcs[p].Wait?
    ensures p == 0
  {
    hide ClosingPc;
  }

  lemma KeepLastCopy(c: Config, f0: seq<seq<Rec>>, s: State)
    requires Valid(c) && Common(c, f0, s) && BetweenInv(c, f0, s) && s.pcs[0].Copy?
    ensures BetweenInv(c, f0, StepMerge(c, s, 0)) && LocalStep(c, s, StepMerge(c, s, 0), 0, Between)
  {
    ClosingOnly(c, f0, s);
    LastMergeStarts(c, s.file[s.at]);
    RunsFacts(c, s.log.rounds);
    hide BetweenInv, RoundComing, Target, MergeAll, MergeSeq, RunsAfter, NextGuard, MapShape, Blk, LocalStep;
    var t := StepMerge(c, s, 0);
    assert ClosingPc(c, f0, t, t.pcs[0]);
    hide ClosingPc;
    assert s.file == s.file[s.at := s.file[s.at]];
    MainMoves(c, f0, s, t, s.file[s.at]);
  }

  /** The record a store writes, and the pc after it. */
  predicate MoreToStore(pc: Pc) {
    Underway(pc) && (pc.x < |pc.left| || pc.y < |pc.right|)
  }

  predicate TakesLeft(pc: Pc)
    requires MoreToStore(pc)
  {
    pc.x < |pc.left| && (pc.y < |pc.right| ==> pc.left[pc.x].mark < pc.right[pc.y].mark)
  }

  function Chosen(pc: Pc): Rec
    requires MoreToStore(pc)
  {
    if TakesLeft(pc) then pc.left[pc.x] else pc.right[pc.y]
  }

  function Stored(pc: Pc): Pc
    requires MoreToStore(pc)
  {
    if TakesLeft(pc) then pc.(x := pc.x + 1) else pc.(y := pc.y + 1)
  }

  /** The choice a store makes follows MergeSeq record by record: one record goes from what
      is left to write to what is written. */
  lemma StoreInto(u: seq<Rec>, pc: Pc)
    requires MoreToStore(pc) && |u| >= |pc.left| + |pc.right|
    ensures Underway(Stored(pc)) && Stored(pc).x + Stored(pc).y == pc.x + pc.y + 1
    ensures Stored(pc) == pc.(x := Stored(pc).x, y := Stored(pc).y)
    ensures u[pc.x + pc.y := Chosen(pc)][..pc.x + pc.y + 1] + MergeRest(Stored(pc)) == u[..pc.x + pc.y] + MergeRest(pc)
  {
    var k, v := pc.x + pc.y, Chosen(pc);
    assert MergeRest(pc) == [v] + MergeRest(Stored(pc)) by {
      if TakesLeft(pc) {
        assert MergeRest(pc) == [v] + MergeSeq(pc.left[pc.x + 1..], pc.right[pc.y..]);
      } else {
        assert MergeRest(pc) == [v] + MergeSeq(pc.left[pc.x..], pc.right[pc.y + 1..]);
      }
    }
    hide MergeRest, Chosen, Stored;
    assert u[k := v][..k + 1] == u[..k] + [v];
  }

  /** One store: the record chosen goes where the written part ends. */
  lemma StoreEffect(c: Config, s: State, p: nat)
    requires p < |s.pcs| && MoreToStore(s.pcs[p]) && s.at < |s.file|
    ensures var pc := s.pcs[p];
      StepMerge(c, s, p) == s.(
        pcs := s.pcs[p := Stored(pc)],
        file := s.file[s.at := Poke(s.file[s.at], c.RunLen(pc.runs), pc.no, pc.x + pc.y, Chosen(pc))])
  {
    hide Poke;
  }

  lemma LastStoreEffect(c: Config, f0: seq<seq<Rec>>, s: State)
    requires Valid(c) && Common(c, f0, s) && s.pcs != [] && s.pcs[0].Store? && ClosingPc(c, f0, s, s.pcs[0])
    requires MoreToStore(s.pcs[0])
    ensures var t := StepMerge(c, s, 0);
      && ClosingPc(c, f0, t, t.pcs[0]) && !t.pcs[0].Wait? && |t.file[s.at]| == c.memsize
      && t == s.(pcs := s.pcs[0 := t.pcs[0]], file := s.file[s.at := t.file[s.at]])
  {
    var pc, w := s.pcs[0], s.file[s.at];
    LastMergeStarts(c, w);
    hide Target, MergeAll, MergeSeq, RunsAfter, Stored, Chosen, MergeRest;
    StoreEffect(c, s, 0);
    hide StepMerge;
    StoreInto(w, pc);
    assert Poke(w, c.RunLen(2), 0, pc.x + pc.y, Chosen(pc)) == w[pc.x + pc.y := Chosen(pc)];
    hide Poke;
  }

  lemma KeepLastStore(c: Config, f0: seq<seq<Rec>>, s: State)
    requires Valid(c) && Common(c, f0, s) && BetweenInv(c, f0, s) && s.pcs[0].Store?
    requires MoreToStore(s.pcs[0])
    ensures BetweenInv(c, f0, StepMerge(c, s, 0)) && LocalStep(c, s, StepMerge(c, s, 0), 0, Between)
  {
    ClosingOnly(c, f0, s);
    assert s.at < |s.file|;
    hide BetweenInv, RoundComing, StepMerge, LocalStep, ClosingPc;
    LastStoreEffect(c, f0, s);
    var t := StepMerge(c, s, 0);
    MainMoves(c, f0, s, t, t.file[s.at]);
  }

  lemma KeepLastReturn(c: Config, f0: seq<seq<Rec>>, s: State)
    requires Valid(c) && Common(c, f0, s) && BetweenInv(c, f0, s) && s.pcs[0].Store?
    requires s.pcs[0].x == |s.pcs[0].left| && s.pcs[0].y == |s.pcs[0].right|
    ensures BetweenInv(c, f0, StepMerge(c, s, 0)) && LocalStep(c, s, StepMerge(c, s, 0), 0, Between)
  {
    ClosingOnly(c, f0, s);
    LastMergeStarts(c, s.file[s.at]);
    hide BetweenInv, RoundComing, Target, MergeAll, RunsAfter, Poke, LocalStep, Blk;
    var pc, w, t := s.pcs[0], s.file[s.at], StepMerge(c, s, 0);
    assert w[..pc.x + pc.y] + MergeRest(pc) == w;
    hide MergeSeq;
    assert ClosingPc(c, f0, t, t.pcs[0]);
    hide ClosingPc;
    assert s.file == s.file[s.at := s.file[s.at]];
    MainMoves(c, f0, s, t, s.file[s.at]);
  }

  /** The chunk is finished: its window joins the finished ones. */
  lemma KeepAdvance(c: Config, f0: seq<seq<Rec>>, s: State)
    requires Valid(c) && Inv(c, f0, s) && s.pcs[0] == Advance && MapsWell(c, s, Move(0))
    ensures Inv(c, f0, StepChunk(c, s, 0))
  {
    hide Target, MergeAll, RunsAfter, NextGuard, MapShape, MappedWindow;
  }

  /** BLOCKS is restored; no worker may still be at the test BLOCKS > 4. */
  lemma KeepReset(c: Config, f0: seq<seq<Rec>>, s: State)
    requires Valid(c) && s.pcs != [] && s.pcs[0] == Reset && BetweenInv(c, f0, s) && PromptAct(s, Move(0))
    ensures BetweenInv(c, f0, StepChunk(c, s, 0)) && LocalStep(c, s, StepChunk(c, s, 0), 0, Between)
  {
    hide Target, MergeAll, RunsAfter, MapShape;
    assert !RoundComing(c, f0, s);
    var t := StepChunk(c, s, 0);
    assert forall q | 0 < q < |t.pcs| :: t.pcs[q] == s.pcs[q];
  }

  lemma KeepBetween(c: Config, f0: seq<seq<Rec>>, s: State, p: nat)
    requires Valid(c) && Inv(c, f0, s) && PhaseOf(s.pcs[0]) == Between && CanMove(s, p)
    requires PromptAct(s, Move(p)) && MapsWell(c, s, Move(p))
    ensures Inv(c, f0, StepOf(c, s, p))
  {
    hide Target, MergeAll, RunsAfter, MapShape, Common, NextGuard, StepMerge, StepChunk, Blk, MergeSeq, MappedWindow;
    assert PhaseOf(s.pcs[p]) == Between;
    if !s.pcs[p].MergeTest? {
      MainOnly(c, f0, s, p);
    }
    if s.pcs[p] == Advance {
      KeepAdvance(c, f0, s);
    } else {
      if s.pcs[p] == MergeTest {
        KeepMergeTest(c, f0, s, p);
      } else if s.pcs[p].Copy? {
        KeepLastCopy(c, f0, s);
      } else if s.pcs[p].Reset? {
        KeepReset(c, f0, s);
      } else if s.pcs[p].x == |s.pcs[p].left| && s.pcs[p].y == |s.pcs[p].right| {
        KeepLastReturn(c, f0, s);
      } else {
        KeepLastStore(c, f0, s);
      }
      hide BetweenInv;
      Reassemble(c, f0, s, StepOf(c, s, p), p, Between);
    }
  }

  lemma OpenBetween(c: Config, f0: seq<seq<Rec>>, s: State)
    requires Valid(c) && Inv(c, f0, s) && PhaseOf(s.pcs[0]) == Between && Enabled(s, Open)
    ensures Inv(c, f0, Next(c, s, Open))
  {
    hide Target, MergeAll, RunsAfter, MapShape;
    var t := Next(c, s, Open);
    if RoundComing(c, f0, s) {
      assert forall q | 0 <= q < |s.pcs| :: s.pcs[q] == Wait(RoundOpen);
      assert forall q | 0 <= q < |t.pcs| :: t.pcs[q] == Halve;
    } else {
      assert s.pcs[0] == Wait(ChunkEnd);
      assert forall q | 0 <= q < |s.pcs| :: s.pcs[q] == Wait(ChunkEnd);
      assert forall q | 0 <= q < |t.pcs| :: t.pcs[q] == LoopTest;
    }
  }

  // ------------------------------------------------------------------ Halving

  /** Halfway to the end of this round's pairs lies the entry that guards the next round. */
  lemma GuardForRound(c: Config, s: State)
    requires Valid(c) && NextGuard(c, s) && s.runs == RunsAfter(c, s.log.rounds) && s.runs > 4
    requires s.log.rounds <= c.order - 1
    ensures var half := s.runs / 2;
      half <= c.Blocks() && (s.claims[half].isBusy || (half == c.Blocks() && s.claims[half] == c.over))
  {
    RunsFacts(c, s.log.rounds);
    RunsFacts(c, 0);
    if s.log.rounds > 0 {
      if s.log.rounds > 1 {
        Pow2Monotone(c.order + 1 - s.log.rounds, c.order);
      }
      assert s.runs <= c.Blocks();
      hide RunsAfter;
      assert Busy(s.claims, s.runs / 2);
    }
  }

  /** Main's share of a round: BLOCKS is halved and the map freed, and the entry one past
      the last pair is still busy from the round before. */
  lemma RoundSetUp(c: Config, f0: seq<seq<Rec>>, s: State)
    requires Valid(c) && s.pcs != [] && RoundsLeft(c, f0, s) && s.runs > 4 && MapShape(c, s.claims)
    ensures var t := StepHalve(c, s, 0); RoundReady(c, f0, t) && MapShape(c, t.claims) && t.file == s.file
  {
    RunsFacts(c, s.log.rounds);
    RunsFacts(c, 0);
    GuardForRound(c, s);
    hide Target, MergeAll, RunsAfter, NextGuard;
  }

  lemma KeepHalving(c: Config, f0: seq<seq<Rec>>, s: State, p: nat)
    requires Valid(c) && Inv(c, f0, s) && PhaseOf(s.pcs[0]) == Halving && CanMove(s, p)
    ensures Inv(c, f0, StepOf(c, s, p))
  {
    hide Target, MergeAll, RunsAfter, MapShape, Common;
    assert s.pcs[p] == Halve;
    var t := StepOf(c, s, p);
    assert t == StepHalve(c, s, p);
    if p == 0 {
      RoundSetUp(c, f0, s);
    }
    assert HalvingInv(c, f0, t) by { hide InPhase; }
    hide HalvingInv;
    Reassemble(c, f0, s, t, p, Halving);
  }

  lemma OpenHalving(c: Config, f0: seq<seq<Rec>>, s: State)
    requires Valid(c) && Inv(c, f0, s) && PhaseOf(s.pcs[0]) == Halving && Enabled(s, Open)
    ensures Inv(c, f0, Next(c, s, Open))
  {
    hide Target, MergeAll, RunsAfter;
    var t := Next(c, s, Open);
    assert forall q | 0 <= q < |s.pcs| :: s.pcs[q] == Wait(RoundGo);
    assert forall q | 0 <= q < |t.pcs| :: t.pcs[q] == ClaimTest(0);
    assert RoundReady(c, f0, s);
    forall i | 0 <= i < t.runs && i % 2 == 0
      ensures PairClaim(c, t, i)
    {
      assert t.log.merger[i] == None && t.log.merges[i] == 0;
    }
    assert LockOwned(t, t.mergeLock, HoldsMergeLock);
  }
}
