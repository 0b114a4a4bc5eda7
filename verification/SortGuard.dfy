/** The visit i == BLOCKS of the first merge round, which reads the word past the claim map:
    when it goes to a merge, and what that merge does. */
module SortGuard {
  import opened Base
  import opened Runs
  import opened Blocks
  import opened SortModel
  import opened SortInvariant
  import opened SortSteps
  import opened SortRounds
  import opened SortClaims
  import opened SortTheorems
  import opened SortTermination

  // ------------------------------------------------- the way to the first visit

  /** A participant in the claim loop that has not yet looked at the entry BLOCKS. */
  predicate Short(runs: nat, pc: Pc) {
    match pc
    case ClaimTest(i) => i <= runs
    case ClaimLock(i) => i <= runs
    case ClaimCheck(i) => i < runs
    case ClaimSet(i) => i < runs
    case ClaimUnlock(i, _) => i < runs
    case Copy(_, _, back) => back.ClaimLoop? && back.i < runs
    case Store(_, _, back, _, _, _, _) => back.ClaimLoop? && back.i < runs
    case _ => false
  }

  /** The word past the map is as it was found. */
  ghost predicate Untold(c: Config, s: State) {
    |s.claims| == c.Blocks() + 1 && s.claims[c.Blocks()] == c.over
  }

  /** The first round of a chunk is to come or on, and nobody has made the visit. */
  ghost predicate BeforeVisit(c: Config, f0: seq<seq<Rec>>, s: State) {
    && Inv(c, f0, s) && s.pcs != [] && s.done < |s.file|
    && match PhaseOf(s.pcs[0])
       case Opening => true
       case Sorting => true
       case Between => RoundComing(c, f0, s) && s.log.rounds == 0
       case Halving => Untold(c, s) && (if s.pcs[0] == Halve then s.log.rounds == 0 else s.log.rounds == 1)
       case Claiming => Untold(c, s) && s.log.rounds == 1 && forall p | 0 <= p < |s.pcs| :: Short(s.runs, s.pcs[p])
       case _ => false
  }

  /** Participant p is the first to look at the word past the map. */
  ghost predicate FirstVisit(c: Config, f0: seq<seq<Rec>>, s: State, p: nat) {
    && Inv(c, f0, s) && p < |s.pcs| && s.pcs[p] == ClaimCheck(s.runs)
    && s.runs == c.Blocks() && Untold(c, s) && s.mergeLock == Some(p)
    && s.at < |s.file| && |s.file[s.at]| == c.memsize
  }

  lemma BeforeVisitIsSafe(c: Config, f0: seq<seq<Rec>>, s: State, a: Act)
    requires Valid(c) && BeforeVisit(c, f0, s) && Enabled(s, a) && PromptAct(s, a)
    ensures StepSafe(c, s, a)
  {
    hide Target, MergeAll;
    assert forall p | 0 <= p < |s.pcs| :: PhaseOf(s.pcs[p]) == PhaseOf(s.pcs[0]);
    assert s.pcs[0] != Advance;
  }

  // ------------------------------------------------------ one step of the way

  /** A step of p in the claim loop that has not left it, at most come to the visit. */
  ghost predicate ShortStep(c: Config, s: State, t: State, p: nat) {
    && p < |s.pcs| == |t.pcs| && t.pcs == s.pcs[p := t.pcs[p]]
    && t.runs == s.runs && t.log.rounds == s.log.rounds && Untold(c, t)
    && t.at == s.at && t.done == s.done && |t.file| == |s.file|
    && (Short(t.runs, t.pcs[p]) || (t.pcs[p] == ClaimCheck(t.runs) && t.mergeLock == Some(p)))
  }

  lemma ShortClaim(c: Config, s: State, p: nat)
    requires CanMove(s, p) && Short(s.runs, s.pcs[p]) && Untold(c, s) && s.runs == c.Blocks() && s.runs % 2 == 0
    requires (OnlyLocks(s.pcs[p]) || s.pcs[p].ClaimSet?) && s.pcs[p].i % 2 == 0
    ensures ShortStep(c, s, StepClaim(c, s, p), p)
  {
  }

  lemma ShortCopy(c: Config, f0: seq<seq<Rec>>, s: State, p: nat)
    requires Valid(c) && ClaimingInv(c, f0, s) && p < |s.pcs| && s.pcs[p].Copy? && Untold(c, s)
    ensures ShortStep(c, s, StepMerge(c, s, p), p)
  {
    MergerPc(c, f0, s, p);
    CopyEffect(c, f0, s, p, s.pcs[p].sav);
    hide StepMerge, ClaimingInv, ClaimingPc, Blk;
  }

  lemma ShortStore(c: Config, f0: seq<seq<Rec>>, s: State, p: nat)
    requires Valid(c) && ClaimingInv(c, f0, s) && p < |s.pcs| && MoreToStore(s.pcs[p]) && Untold(c, s)
    ensures ShortStep(c, s, StepMerge(c, s, p), p)
  {
    MergerPc(c, f0, s, p);
    StoreEffect(c, s, p);
    hide StepMerge, ClaimingInv, ClaimingPc, Poke, Chosen;
  }

  lemma ShortReturn(c: Config, f0: seq<seq<Rec>>, s: State, p: nat)
    requires Valid(c) && ClaimingInv(c, f0, s) && p < |s.pcs| && Underway(s.pcs[p]) && !MoreToStore(s.pcs[p])
    requires Untold(c, s) && s.runs % 2 == 0
    ensures ShortStep(c, s, StepMerge(c, s, p), p)
  {
    MergerPc(c, f0, s, p);
    ReturnEffect(c, f0, s, p, s.pcs[p].no);
    var k := s.pcs[p].no;
    hide StepMerge, ClaimingInv, ClaimingPc, ShortStep, Untold;
    assert |s.pcs| > p && IsPair(s, k);
    ReturnIsShort(c, s, p, k, StepMerge(c, s, p).log);
  }

  lemma ReturnIsShort(c: Config, s: State, p: nat, k: nat, log: Log)
    requires p < |s.pcs| && IsPair(s, k) && Untold(c, s) && s.runs % 2 == 0 && log.rounds == s.log.rounds
    ensures ShortStep(c, s, s.(pcs := s.pcs[p := ClaimTest(k + 2)], log := log), p)
  {
  }

  lemma ShortAfter(c: Config, f0: seq<seq<Rec>>, s: State, p: nat)
    requires Valid(c) && ClaimingInv(c, f0, s) && CanMove(s, p) && Short(s.runs, s.pcs[p]) && Untold(c, s)
    requires s.runs == c.Blocks()
    ensures ShortStep(c, s, StepOf(c, s, p), p)
  {
    RunsEven(c, s.log.rounds);
    assert ClaimingPc(c, s, p, s.pcs[p]);
    hide ShortStep, StepClaim, StepMerge, ClaimingInv, Untold, Blk;
    if s.pcs[p].Copy? {
      ShortCopy(c, f0, s, p);
    } else if MoreToStore(s.pcs[p]) {
      ShortStore(c, f0, s, p);
    } else if s.pcs[p].Store? {
      ShortReturn(c, f0, s, p);
    } else {
      ShortClaim(c, s, p);
    }
  }

  ghost predicate OnTheWay(c: Config, f0: seq<seq<Rec>>, s: State) {
    BeforeVisit(c, f0, s) || exists p :: FirstVisit(c, f0, s, p)
  }

  lemma FirstRound(c: Config, rounds: nat)
    requires Valid(c)
    ensures RunsAfter(c, 0) == 2 * c.Blocks() && RunsAfter(c, 1) == c.Blocks() && c.Blocks() >= 16
  {
    RunsFacts(c, 0);
  }

  lemma EarlyMove(c: Config, f0: seq<seq<Rec>>, s: State, p: nat)
    requires Valid(c) && BeforeVisit(c, f0, s) && CanMove(s, p) && MapsWell(c, s, Move(p))
    requires Inv(c, f0, StepOf(c, s, p))
    requires PhaseOf(s.pcs[0]) == Opening || PhaseOf(s.pcs[0]) == Sorting
    ensures BeforeVisit(c, f0, StepOf(c, s, p))
  {
    var t := StepOf(c, s, p);
    MoveFrame(c, f0, s, p);
    PhaseAfterMove(c, f0, s, t, p);
    assert PhaseOf(s.pcs[p]) == PhaseOf(s.pcs[0]);
    hide Inv, StepOf, RoundComing, MapsWell, Untold;
    AtMovesInAdvance(c, s, Move(p));
  }

  lemma HalvingMove(c: Config, f0: seq<seq<Rec>>, s: State, p: nat)
    requires Valid(c) && BeforeVisit(c, f0, s) && CanMove(s, p) && Inv(c, f0, StepOf(c, s, p))
    requires PhaseOf(s.pcs[0]) == Halving
    ensures BeforeVisit(c, f0, StepOf(c, s, p))
  {
    var t := StepOf(c, s, p);
    assert PhaseOf(s.pcs[p]) == Halving && s.pcs[p] == Halve && t == StepHalve(c, s, p);
    FirstRound(c, 0);
    assert s.pcs[0] == Halve ==> s.runs == 2 * c.Blocks();
    assert PhaseOf(t.pcs[0]) == Halving;
    hide Inv, StepOf;
  }

  lemma ClaimingMove(c: Config, f0: seq<seq<Rec>>, s: State, p: nat)
    requires Valid(c) && BeforeVisit(c, f0, s) && CanMove(s, p) && Inv(c, f0, StepOf(c, s, p))
    requires PhaseOf(s.pcs[0]) == Claiming
    ensures OnTheWay(c, f0, StepOf(c, s, p))
  {
    var t := StepOf(c, s, p);
    FirstRound(c, 0);
    assert ClaimingInv(c, f0, s) && s.runs == c.Blocks() && Short(s.runs, s.pcs[p]);
    hide Inv, StepOf, Untold, ClaimingInv, RunsAfter;
    ShortAfter(c, f0, s, p);
    if Short(t.runs, t.pcs[p]) {
      assert forall q | 0 <= q < |t.pcs| :: Short(t.runs, t.pcs[q]);
      assert PhaseOf(t.pcs[0]) == Claiming by { assert Short(t.runs, t.pcs[0]); }
    } else {
      VisitState(c, f0, t, p);
    }
  }

  lemma VisitState(c: Config, f0: seq<seq<Rec>>, s: State, p: nat)
    requires Inv(c, f0, s) && p < |s.pcs| && s.pcs[p] == ClaimCheck(s.runs) && s.mergeLock == Some(p)
    requires s.runs == c.Blocks() && Untold(c, s)
    ensures FirstVisit(c, f0, s, p)
  {
    assert PhaseOf(s.pcs[p]) == PhaseOf(s.pcs[0]);
    hide Target, Common;
  }

  lemma VisitMove(c: Config, f0: seq<seq<Rec>>, s: State, p: nat)
    requires Valid(c) && BeforeVisit(c, f0, s) && CanMove(s, p) && MapsWell(c, s, Move(p))
    requires Inv(c, f0, StepOf(c, s, p))
    ensures OnTheWay(c, f0, StepOf(c, s, p))
  {
    var t := StepOf(c, s, p);
    if PhaseOf(s.pcs[0]) == Between {
      assert s.pcs[0] == MergeTest || s.pcs[0] == Wait(RoundOpen);
      hide Inv, StepOf, RoundComing, MapsWell;
      ComingMove(c, f0, s, p);
      assert BeforeVisit(c, f0, t);
    } else {
      hide Inv, StepOf, RoundComing, MapsWell, Untold;
      if PhaseOf(s.pcs[0]) == Halving {
        HalvingMove(c, f0, s, p);
      } else if PhaseOf(s.pcs[0]) == Claiming {
        ClaimingMove(c, f0, s, p);
      } else {
        EarlyMove(c, f0, s, p);
      }
    }
  }

  lemma VisitOpen(c: Config, f0: seq<seq<Rec>>, s: State)
    requires Valid(c) && BeforeVisit(c, f0, s) && Enabled(s, Open) && Inv(c, f0, Next(c, s, Open))
    ensures BeforeVisit(c, f0, Next(c, s, Open))
  {
    var t := Next(c, s, Open);
    assert s.pcs[0].Wait? && t.pcs[0] == AfterWait(s.pcs[0].at);
    if PhaseOf(s.pcs[0]) == Opening {
      assert OpeningPc(s, 0, s.pcs[0]);
    } else if PhaseOf(s.pcs[0]) == Sorting {
      SortingOpens(c, f0, s);
    } else if PhaseOf(s.pcs[0]) == Halving {
      forall p | 0 <= p < |t.pcs|
        ensures t.pcs[p] == ClaimTest(0)
      {
        assert PhaseOf(s.pcs[p]) == Halving;
      }
    }
    hide Inv, Next;
  }

  lemma SortingOpens(c: Config, f0: seq<seq<Rec>>, s: State)
    requires Valid(c) && Inv(c, f0, s) && PhaseOf(s.pcs[0]) == Sorting && Enabled(s, Open)
    requires Inv(c, f0, Next(c, s, Open))
    ensures var t := Next(c, s, Open);
      t.pcs != [] && t.pcs[0] == MergeTest && RoundComing(c, f0, t) && t.log.rounds == 0 && t.done == s.done
  {
    hide Target, MergeAll, BlockClaim, SortingWindow, LockOwned;
    FirstRound(c, 0);
    var t := Next(c, s, Open);
    assert SortingPc(c, s, 0, s.pcs[0]);
    assert t.pcs[0] == MergeTest;
  }

  // ----------------------------------------------------------- the whole way

  lemma {:induction false} VisitFrom(c: Config, f0: seq<seq<Rec>>, s: State)
    returns (acts: seq<Act>, p: nat)
    requires Valid(c) && OnTheWay(c, f0, s)
    ensures Legal(c, s, acts) && Prompt(c, s, acts) && FirstVisit(c, f0, Run(c, s, acts), p)
    decreases MeasureNat(c, f0, s)
  {
    hide BeforeVisit, FirstVisit, Inv, Next, Enabled, PromptAct, MapsWell, VisitOk;
    acts := [];
    if q: nat :| FirstVisit(c, f0, s, q) {
      p := q;
    } else {
      var a := VisitStep(c, f0, s);
      acts, p := VisitFrom(c, f0, Next(c, s, a));
      RunStep(c, s, a, acts);
      acts := [a] + acts;
    }
  }

  lemma VisitStep(c: Config, f0: seq<seq<Rec>>, s: State) returns (a: Act)
    requires Valid(c) && BeforeVisit(c, f0, s)
    ensures Inv(c, f0, s) && Enabled(s, a) && PromptAct(s, a) && OnTheWay(c, f0, Next(c, s, a))
    ensures Inv(c, f0, Next(c, s, a)) && MeasureNat(c, f0, Next(c, s, a)) < MeasureNat(c, f0, s)
  {
    assert !AllDone(s) by {
      assert PhaseOf(s.pcs[0]) != Ended;
    }
    SomebodyMoves(c, f0, s);
    a :| Enabled(s, a) && PromptAct(s, a);
    hide Inv, PhaseOf, PromptAct, MapsWell, VisitOk, StepOf;
    BeforeVisitIsSafe(c, f0, s, a);
    StepKeepsInv(c, f0, s, a);
    StepLowersMeasure(c, f0, s, a);
    hide Measure, BeforeVisit, FirstVisit;
    match a
    case Move(p) => VisitMove(c, f0, s, p);
    case Open => VisitOpen(c, f0, s);
  }

  lemma {:induction false} RunAppend(c: Config, s: State, acts: seq<Act>, a: Act)
    requires Legal(c, s, acts) && Prompt(c, s, acts)
    requires Enabled(Run(c, s, acts), a) && PromptAct(Run(c, s, acts), a)
    ensures Legal(c, s, acts + [a]) && Prompt(c, s, acts + [a])
    ensures Run(c, s, acts + [a]) == Next(c, Run(c, s, acts), a)
    decreases |acts|
  {
    hide Enabled, PromptAct, Next;
    if acts == [] {
      RunStep(c, s, a, []);
      assert acts + [a] == [a] + [];
    } else {
      RunAppend(c, Next(c, s, acts[0]), acts[1..], a);
      assert acts + [a] == [acts[0]] + (acts[1..] + [a]);
      RunStep(c, s, acts[0], acts[1..] + [a]);
    }
  }

  lemma ReachedNext(c: Config, f0: seq<seq<Rec>>, s: State, a: Act)
    requires Reached(c, f0, s) && Enabled(s, a) && PromptAct(s, a)
    ensures Reached(c, f0, Next(c, s, a))
  {
    hide Enabled, PromptAct, Next;
    var acts :| Legal(c, Init(c, f0), acts) && Prompt(c, Init(c, f0), acts) && s == Run(c, Init(c, f0), acts);
    RunAppend(c, Init(c, f0), acts, a);
    assert Reached(c, f0, Run(c, Init(c, f0), acts + [a]));
  }

  /** In every valid configuration and on every file some run comes to the visit, with the word
      past the map as it was found. */
  lemma VisitReached(c: Config, f0: seq<seq<Rec>>) returns (s: State, p: nat)
    requires Valid(c) && Tiled(c, f0) && f0 != []
    ensures Reached(c, f0, s) && FirstVisit(c, f0, s, p)
  {
    InitInv(c, f0);
    var acts;
    assert BeforeVisit(c, f0, Init(c, f0)) by { hide Inv; }
    hide BeforeVisit, FirstVisit, Inv;
    acts, p := VisitFrom(c, f0, Init(c, f0));
    s := Run(c, Init(c, f0), acts);
  }

  // ------------------------------------------------------ where the visit leads

  /** Participant p goes to a merge because of the visit i == BLOCKS. */
  predicate ExtraMerge(s: State, p: nat) {
    p < |s.pcs| && s.pcs[p].Copy? && s.pcs[p].back == ClaimLoop(s.runs)
  }

  predicate Astray(s: State, p: nat) { p < |s.pcs| && s.pcs[p] == Wild }

  /** The runs the entry names are both in the window. */
  predicate NamesPair(c: Config, e: Entry) { 0 <= e.block && e.block + 2 <= c.Blocks() }

  /** From the visit of an entry that is free and does not hold -1 three steps of p lead to a
      merge of what it names. */
  lemma VisitToMerge(c: Config, f0: seq<seq<Rec>>, s: State, p: nat) returns (t: State)
    requires Reached(c, f0, s) && FirstVisit(c, f0, s, p) && !Harmless(c.over)
    ensures Reached(c, f0, t) && t.at < |t.file| && |t.file[t.at]| == c.memsize && t.runs == c.Blocks()
    ensures p < |t.pcs| && t.pcs[p] == Copy(c.over.block, c.Blocks(), ClaimLoop(c.Blocks()))
  {
    hide Inv, Reached;
    var s1 := Next(c, s, Move(p));
    ReachedNext(c, f0, s, Move(p));
    var s2 := Next(c, s1, Move(p));
    ReachedNext(c, f0, s1, Move(p));
    t := Next(c, s2, Move(p));
    ReachedNext(c, f0, s2, Move(p));
  }

  /** The guard is exact: the visit i == BLOCKS sends somebody to a merge in some run just when
      the word past the map reads as a free entry other than -1. If besides it names no pair of
      runs, that merge leaves the mapped window. */
  lemma GuardExact(c: Config, f0: seq<seq<Rec>>)
    requires Valid(c) && Tiled(c, f0) && Mappable(c, |f0|) && f0 != []
    ensures (exists s, p :: Reached(c, f0, s) && ExtraMerge(s, p)) <==> !Harmless(c.over)
    ensures !Harmless(c.over) && !NamesPair(c, c.over) ==>
      exists s, p: nat :: Reached(c, f0, s) && Astray(s, p)
  {
    if Harmless(c.over) {
      forall s, p | Reached(c, f0, s)
        ensures !ExtraMerge(s, p)
      {
        ReachableInv(c, f0, s);
        NoExtraMerge(c, f0, s, p);
      }
    } else {
      var s, p := VisitReached(c, f0);
      var t := VisitToMerge(c, f0, s, p);
      hide Inv, Reached, FirstVisit;
      assert ExtraMerge(t, p);
      if !NamesPair(c, c.over) {
        CopyOutcome(c, t, p, c.over.block, ClaimLoop(c.Blocks()));
        ReachedNext(c, f0, t, Move(p));
        hide StepOf, Tiled, Mappable;
        assert Astray(StepOf(c, t, p), p);
      }
    }
  }

  lemma NoExtraMerge(c: Config, f0: seq<seq<Rec>>, s: State, p: nat)
    requires Guarded(c) && Inv(c, f0, s)
    ensures !ExtraMerge(s, p)
  {
    hide Target, MergeAll, Blk, MergeSeq;
    if p < |s.pcs| && s.pcs[p].Copy? {
      assert PhaseOf(s.pcs[p]) == PhaseOf(s.pcs[0]);
      if PhaseOf(s.pcs[0]) == Claiming {
        assert ClaimingPc(c, s, p, s.pcs[p]);
      }
    }
  }

  /** A merge of first-round runs is inside the window just when both runs are. */
  lemma CopyOutcome(c: Config, s: State, p: nat, b: int, back: Caller)
    requires Valid(c) && p < |s.pcs| && s.pcs[p] == Copy(b, c.Blocks(), back)
    requires s.at < |s.file| && |s.file[s.at]| == c.memsize
    ensures StepOf(c, s, p).pcs[p] == Wild <==> !NamesPair(c, Entry(false, b))
  {
    BlockLenExact(c);
    hide Blk, Valid;
    if 0 <= b {
      PairInside(c.BlockLen(), c.Blocks(), b);
    }
  }

  // --------------------------------------------------- what the extra merge does

  /** The participant alone makes k steps. */
  function Alone(c: Config, s: State, p: nat, k: nat): (r: Option<State>)
    ensures r.Some? ==> |r.value.pcs| == |s.pcs|
    decreases k
  {
    if k == 0 then Some(s) else if CanMove(s, p) then Alone(c, StepOf(c, s, p), p, k - 1) else None
  }

  /** The window after the merge at pc has been carried on to its end from position lo. */
  function Finished(w: seq<Rec>, lo: nat, pc: Pc): (r: seq<Rec>)
    requires Underway(pc) && lo + |pc.left| + |pc.right| <= |w|
  {
    w[..lo + pc.x + pc.y] + MergeRest(pc) + w[lo + |pc.left| + |pc.right|..]
  }

  lemma SwapMiddle(a: seq<Rec>, x: seq<Rec>, r: seq<Rec>, y: seq<Rec>, q: seq<Rec>, z: seq<Rec>)
    requires x + r == y + q
    ensures (a + x) + r + z == (a + y) + q + z
  {
    assert (a + x) + r == a + (x + r);
    assert (a + y) + q == a + (y + q);
  }

  lemma OneStored(w: seq<Rec>, lo: nat, k: nat, end: nat, v: Rec)
    requires lo + k < end <= |w|
    ensures w[lo + k := v][..lo + k + 1] == w[..lo] + w[lo..][k := v][..k + 1]
    ensures w[..lo + k] == w[..lo] + w[lo..][..k]
    ensures w[lo + k := v][end..] == w[end..]
  {
  }

  lemma StoreFinished(w: seq<Rec>, lo: nat, pc: Pc)
    requires MoreToStore(pc) && lo + |pc.left| + |pc.right| <= |w|
    ensures Underway(Stored(pc)) && Stored(pc).left == pc.left && Stored(pc).right == pc.right
    ensures Finished(w[lo + pc.x + pc.y := Chosen(pc)], lo, Stored(pc)) == Finished(w, lo, pc)
  {
    var k, v, q := pc.x + pc.y, Chosen(pc), Stored(pc);
    StoreInto(w[lo..], pc);
    var u, end := w[lo + k := v], lo + |pc.left| + |pc.right|;
    OneStored(w, lo, k, end, v);
    hide MergeRest, Chosen, Stored;
    SwapMiddle(w[..lo], w[lo..][k := v][..k + 1], MergeRest(q), w[lo..][..k], MergeRest(pc), w[end..]);
  }

  /** r is s with participant p back in the claim loop behind index i and the window w, and the
      merge counted in the log. */
  ghost predicate Returned(s: State, p: nat, i: nat, w: seq<Rec>, r: Option<State>) {
    && p < |s.pcs| && s.at < |s.file| && r.Some? && r.value.log.rounds == s.log.rounds
    && r.value == s.(pcs := s.pcs[p := ClaimTest(i + 2)], file := s.file[s.at := w], log := r.value.log)
  }

  /** t differs from s in the pc of p and in the mapped window only. */
  ghost predicate OneStore(s: State, t: State, p: nat) {
    && p < |s.pcs| == |t.pcs| && s.at == t.at < |s.file| == |t.file|
    && t == s.(pcs := s.pcs[p := t.pcs[p]], file := s.file[s.at := t.file[s.at]])
  }

  lemma ReturnedBefore(s: State, t: State, p: nat, i: nat, w: seq<Rec>, r: Option<State>)
    requires Returned(t, p, i, w, r) && OneStore(s, t, p)
    ensures Returned(s, p, i, w, r)
  {
    assert s.pcs[p := t.pcs[p]][p := ClaimTest(i + 2)] == s.pcs[p := ClaimTest(i + 2)];
    assert s.file[s.at := t.file[s.at]][s.at := w] == s.file[s.at := w];
  }

  lemma AloneNext(c: Config, s: State, p: nat, k: nat)
    requires CanMove(s, p)
    ensures Alone(c, s, p, k + 1) == Alone(c, StepOf(c, s, p), p, k)
  {
    hide StepOf, CanMove;
  }

  lemma AloneAfter(c: Config, s: State, t: State, p: nat, i: nat, w: seq<Rec>, k: nat)
    requires CanMove(s, p) && t == StepOf(c, s, p) && OneStore(s, t, p) && Returned(t, p, i, w, Alone(c, t, p, k))
    ensures Returned(s, p, i, w, Alone(c, s, p, k + 1))
  {
    hide StepOf, CanMove, Alone, Returned, OneStore;
    AloneNext(c, s, p, k);
    ReturnedBefore(s, t, p, i, w, Alone(c, s, p, k + 1));
  }

  /** A merge in progress from position lo on, with k records to store, that stays inside the
      window. */
  ghost predicate InWindow(c: Config, s: State, p: nat, i: nat, lo: nat, k: int) {
    && p < |s.pcs| && Underway(s.pcs[p]) && s.pcs[p].back == ClaimLoop(i) && s.at < |s.file|
    && lo == s.pcs[p].no * c.RunLen(s.pcs[p].runs)
    && lo + |s.pcs[p].left| + |s.pcs[p].right| <= |s.file[s.at]|
    && k == |s.pcs[p].left| + |s.pcs[p].right| - s.pcs[p].x - s.pcs[p].y >= 0
  }

  lemma AloneReturn(c: Config, s: State, p: nat, i: nat, lo: nat)
    requires InWindow(c, s, p, i, lo, 0)
    ensures Returned(s, p, i, Finished(s.file[s.at], lo, s.pcs[p]), Alone(c, s, p, 1))
  {
    var pc, w := s.pcs[p], s.file[s.at];
    assert pc.left[pc.x..] == [] && pc.right[pc.y..] == [];
    assert Finished(w, lo, pc) == w;
    assert s.file[s.at := w] == s.file;
    AloneNext(c, s, p, 0);
    hide Finished;
  }

  lemma AloneStore(c: Config, s: State, p: nat, i: nat, lo: nat, k: int)
    requires InWindow(c, s, p, i, lo, k) && k > 0
    ensures var t := StepOf(c, s, p);
      && CanMove(s, p) && OneStore(s, t, p) && InWindow(c, t, p, i, lo, k - 1)
      && Finished(t.file[s.at], lo, t.pcs[p]) == Finished(s.file[s.at], lo, s.pcs[p])
  {
    StoreEffect(c, s, p);
    StoreFinished(s.file[s.at], lo, s.pcs[p]);
    hide Finished, StepMerge, Chosen;
  }

  /** Left alone, a merge of the claim loop comes to its end and goes on with the loop. */
  lemma {:induction false} AloneMerges(c: Config, s: State, p: nat, i: nat, lo: nat, k: nat)
    requires InWindow(c, s, p, i, lo, k)
    ensures Returned(s, p, i, Finished(s.file[s.at], lo, s.pcs[p]), Alone(c, s, p, k + 1))
    decreases k
  {
    if k > 0 {
      var t := StepOf(c, s, p);
      AloneStore(c, s, p, i, lo, k);
      assert t.at == s.at;
      var w := Finished(s.file[s.at], lo, s.pcs[p]);
      assert w == Finished(t.file[t.at], lo, t.pcs[p]);
      hide InWindow, Finished, StepOf, CanMove, Alone, Returned, OneStore;
      AloneMerges(c, t, p, i, lo, k - 1);
      AloneAfter(c, s, t, p, i, w, k);
    } else {
      AloneReturn(c, s, p, i, lo);
    }
  }

  /** The window w with the runs b and b + 1 of length n merged. */
  function PairMerged(w: seq<Rec>, n: nat, b: nat): seq<Rec>
    requires b * n + 2 * n <= |w|
  {
    w[..b * n] + MergeSeq(Blk(w, n, b), Blk(w, n, b + 1)) + w[b * n + 2 * n..]
  }

  lemma AloneCopy(c: Config, s: State, p: nat, b: nat, i: nat)
    requires Valid(c) && p < |s.pcs| && s.pcs[p] == Copy(b, c.Blocks(), ClaimLoop(i)) && b + 2 <= c.Blocks()
    requires s.at < |s.file| && |s.file[s.at]| == c.memsize
    ensures var n, w, t := c.BlockLen(), s.file[s.at], StepOf(c, s, p);
      && CanMove(s, p) && b * n + 2 * n <= |w| && OneStore(s, t, p)
      && |Blk(w, n, b)| == |Blk(w, n, b + 1)| == n
      && t == s.(pcs := s.pcs[p := Store(b, c.Blocks(), ClaimLoop(i), Blk(w, n, b), Blk(w, n, b + 1), 0, 0)])
  {
    var n, w := c.BlockLen(), s.file[s.at];
    BlockLenExact(c);
    PairInside(n, c.Blocks(), b);
    PairIsTwoBlocks(w, n, c.Blocks(), b);
    hide Valid, Blk;
    assert s.file == s.file[s.at := s.file[s.at]];
  }

  lemma CopyFinished(c: Config, t: State, p: nat, b: nat, i: nat, n: nat)
    requires p < |t.pcs| && t.at < |t.file| && n == c.BlockLen() && b * n + 2 * n <= |t.file[t.at]|
    requires var w := t.file[t.at];
      && |Blk(w, n, b)| == |Blk(w, n, b + 1)| == n
      && t.pcs[p] == Store(b, c.Blocks(), ClaimLoop(i), Blk(w, n, b), Blk(w, n, b + 1), 0, 0)
    ensures InWindow(c, t, p, i, b * n, 2 * n)
    ensures Finished(t.file[t.at], b * n, t.pcs[p]) == PairMerged(t.file[t.at], n, b)
  {
    var pc := t.pcs[p];
    assert b * n + n + n == b * n + 2 * n;
    hide Blk, MergeSeq;
    assert pc.left[0..] == pc.left && pc.right[0..] == pc.right;
  }

  lemma Copied(c: Config, s: State, p: nat, b: nat, i: nat, n: nat)
    requires Valid(c) && p < |s.pcs| && s.pcs[p] == Copy(b, c.Blocks(), ClaimLoop(i)) && b + 2 <= c.Blocks()
    requires s.at < |s.file| && |s.file[s.at]| == c.memsize && n == c.BlockLen()
    ensures var t := StepOf(c, s, p);
      && CanMove(s, p) && OneStore(s, t, p) && b * n + 2 * n <= |s.file[s.at]| && InWindow(c, t, p, i, b * n, 2 * n)
      && Finished(t.file[t.at], b * n, t.pcs[p]) == PairMerged(s.file[s.at], n, b)
  {
    hide Finished, InWindow, PairMerged, OneStore, Valid, StepOf, Blk, CanMove, Quot, Pow2;
    AloneCopy(c, s, p, b, i);
    CopyFinished(c, StepOf(c, s, p), p, b, i, n);
  }

  lemma CopyThenMerge(c: Config, s: State, t: State, p: nat, i: nat, lo: nat, k: nat)
    requires CanMove(s, p) && t == StepOf(c, s, p) && OneStore(s, t, p) && InWindow(c, t, p, i, lo, k)
    ensures Returned(s, p, i, Finished(t.file[t.at], lo, t.pcs[p]), Alone(c, s, p, k + 2))
  {
    var w := Finished(t.file[t.at], lo, t.pcs[p]);
    hide InWindow, Finished, StepOf, CanMove, Alone, Returned, OneStore;
    AloneMerges(c, t, p, i, lo, k);
    AloneAfter(c, s, t, p, i, w, k + 1);
  }

  /** A merge of the first round that nobody disturbs, that of the extra visit as well as any
      other, puts the merge of what the two runs hold at that moment in their place and changes
      nothing else. */
  lemma LoneMerge(c: Config, s: State, p: nat, b: nat, i: nat, n: nat)
    requires Valid(c) && p < |s.pcs| && s.pcs[p] == Copy(b, c.Blocks(), ClaimLoop(i)) && b + 2 <= c.Blocks()
    requires s.at < |s.file| && |s.file[s.at]| == c.memsize && n == c.BlockLen()
    ensures b * n + 2 * n <= |s.file[s.at]|
    ensures Returned(s, p, i, PairMerged(s.file[s.at], n, b), Alone(c, s, p, 2 * n + 2))
  {
    hide Alone, Returned, Finished, InWindow, PairMerged, OneStore, Valid, StepOf, CanMove, Quot, Pow2;
    Copied(c, s, p, b, i, n);
    CopyThenMerge(c, s, StepOf(c, s, p), p, i, b * n, 2 * n);
  }
}
