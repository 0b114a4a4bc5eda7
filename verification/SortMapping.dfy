/** The limit of the offset openFile passes to mmap: a file is sorted as far as its chunks are
    mapped where they lie, and that is decided by the offset of the last one. */
module SortMapping {
  import opened Runs
  import opened SortModel
  import opened SortInvariant
  import opened SortSteps
  import opened SortRounds
  import opened SortTheorems
  import opened SortTermination

  /** Main has gone on to a chunk and has not mapped its window. */
  predicate Mismapped(s: State) {
    s.done < |s.file| && s.pcs != [] && (s.pcs[0] == Wild || s.at != s.done)
  }

  /** The first chunk, up to chunk n, whose offset does not fit. */
  lemma {:induction false} FirstUnfit(c: Config, n: nat) returns (j: nat)
    requires !OffsetFits(c, n)
    ensures 0 < j <= n && !OffsetFits(c, j) && forall i | 0 <= i < j :: OffsetFits(c, i)
  {
    j := n;
    if i :| 0 <= i < n && !OffsetFits(c, i) {
      j := FirstUnfit(c, i);
    }
  }

  lemma NotDoneYet(c: Config, f0: seq<seq<Rec>>, s: State)
    requires Inv(c, f0, s) && s.done < |s.file|
    ensures !AllDone(s)
  {
    hide Target;
    assert PhaseOf(s.pcs[0]) != Ended;
  }

  /** The number of finished chunks grows by one when main maps the next, and else not. */
  lemma DoneAfter(c: Config, f0: seq<seq<Rec>>, s: State, a: Act)
    requires Enabled(s, a) && Inv(c, f0, s)
    ensures var t := Next(c, s, a);
      && |t.file| == |s.file|
      && (t.done == s.done || (a == Move(0) && s.pcs[0] == Advance && t.done == s.done + 1))
  {
    if a.Move? && s.pcs[a.p] == Advance {
      assert PhaseOf(s.pcs[a.p]) == PhaseOf(s.pcs[0]);
      MainOnly(c, f0, s, a.p);
      hide Inv, MappedWindow;
    } else {
      hide Inv, Next;
      AtMovesInAdvance(c, s, a);
    }
  }

  /** Mapping chunk j well is not possible. */
  lemma StillBefore(c: Config, f0: seq<seq<Rec>>, s: State, a: Act, j: nat)
    requires Valid(c) && Inv(c, f0, s) && Enabled(s, a) && MapsWell(c, s, a)
    requires s.done < j < |s.file| && !OffsetFits(c, j)
    ensures Next(c, s, a).done < j && |Next(c, s, a).file| == |s.file|
  {
    DoneAfter(c, f0, s, a);
    hide Inv, Next, Enabled, OffsetFits;
    MapsRightIff(c, s.done + 1, |s.file|);
  }

  lemma MismapStep(c: Config, f0: seq<seq<Rec>>, s: State, a: Act)
    requires Enabled(s, a) && !MapsWell(c, s, a)
    ensures Mismapped(Next(c, s, a)) && Legal(c, Next(c, s, a), []) && Prompt(c, Next(c, s, a), [])
  {
    hide MappedWindow;
  }

  /** From a state before chunk j, the first that does not fit, some run comes to map it. */
  lemma {:induction false} MismapFrom(c: Config, f0: seq<seq<Rec>>, s: State, j: nat) returns (acts: seq<Act>)
    requires Guarded(c) && Inv(c, f0, s) && s.done < j < |s.file|
    requires !OffsetFits(c, j) && forall i | 0 <= i < j :: OffsetFits(c, i)
    ensures Legal(c, s, acts) && Prompt(c, s, acts) && Mismapped(Run(c, s, acts))
    decreases MeasureNat(c, f0, s)
  {
    hide Next, Enabled, PromptAct, Inv, MapsWell, VisitOk, OffsetFits, Mismapped, AllDone;
    NotDoneYet(c, f0, s);
    SomebodyMoves(c, f0, s);
    var a :| Enabled(s, a) && PromptAct(s, a);
    var rest := [];
    if MapsWell(c, s, a) {
      GuardedVisitOk(c, f0, s, a);
      StepKeepsInv(c, f0, s, a);
      StepLowersMeasure(c, f0, s, a);
      StillBefore(c, f0, s, a, j);
      rest := MismapFrom(c, f0, Next(c, s, a), j);
    } else {
      MismapStep(c, f0, s, a);
    }
    RunStep(c, s, a, rest);
    acts := [a] + rest;
  }

  /** The limit is exact: some run takes main to a chunk whose window it has not mapped just
      when the offset of the last chunk, in bytes, does not fit an int. */
  lemma MappingExact(c: Config, f0: seq<seq<Rec>>)
    requires Guarded(c) && Tiled(c, f0)
    ensures (exists s :: Reached(c, f0, s) && Mismapped(s)) <==> !Mappable(c, |f0|)
  {
    InitInv(c, f0);
    if Mappable(c, |f0|) {
      forall s | Reached(c, f0, s)
        ensures !Mismapped(s)
      {
        ReachableInv(c, f0, s);
        WellMapped(c, f0, s);
      }
    } else {
      var j := FirstUnfit(c, |f0| - 1);
      var acts := MismapFrom(c, f0, Init(c, f0), j);
      hide Mismapped, Inv;
      assert Reached(c, f0, Run(c, Init(c, f0), acts));
    }
  }

  lemma WellMapped(c: Config, f0: seq<seq<Rec>>, s: State)
    requires Inv(c, f0, s)
    ensures !Mismapped(s)
  {
    LostNever(c, f0, s);
    hide InPhase, PhaseInv, Target;
  }
}
