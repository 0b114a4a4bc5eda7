/** Schedules for the first merge round, one participant moving at a time: turns of the claim
    loop put together from the steps of the model. */
module SortTurns {
  import opened Base
  import opened Runs
  import opened Blocks
  import opened SortModel
  import opened SortInvariant
  import opened SortRounds
  import opened SortTheorems
  import opened SortGuard

  /** The first round of a file of one window w; nobody holds the lock, the even entries below
      `busy` are claimed, and the participants are where pcs says. */
  ghost predicate Scene(c: Config, s: State, w: seq<Rec>, busy: nat, pcs: seq<Pc>) {
    && s.pcs == pcs && |pcs| == c.Threads() && s.runs == c.Blocks() && s.at == s.done == 0
    && s.file == [w] && |w| == c.memsize && s.mergeLock.None? && s.log.rounds == 1
    && MapShape(c, s.claims) && s.claims[c.Blocks()].block == c.over.block
    && (forall k | 0 <= k <= c.Blocks() && k % 2 == 0 :: s.claims[k].isBusy <==> k < busy)
  }

  lemma {:induction false} AloneReached(c: Config, f0: seq<seq<Rec>>, s: State, p: nat, k: nat)
    requires Reached(c, f0, s) && Alone(c, s, p, k).Some? && p != 0
    ensures Reached(c, f0, Alone(c, s, p, k).value)
    decreases k
  {
    hide Reached, StepOf, CanMove;
    if k > 0 {
      assert Enabled(s, Move(p)) && PromptAct(s, Move(p));
      ReachedNext(c, f0, s, Move(p));
      AloneReached(c, f0, StepOf(c, s, p), p, k - 1);
    }
  }

  /** A participant in the claim loop takes the lock. */
  lemma LockTurn(c: Config, f0: seq<seq<Rec>>, s: State, p: nat, i: nat) returns (t: State)
    requires Reached(c, f0, s) && p < |s.pcs| && s.pcs[p] == ClaimTest(i)
    requires i <= s.runs && s.mergeLock.None?
    ensures Reached(c, f0, t) && t == s.(pcs := s.pcs[p := ClaimCheck(i)], mergeLock := Some(p))
  {
    hide Reached;
    var s1 := Next(c, s, Move(p));
    ReachedNext(c, f0, s, Move(p));
    t := Next(c, s1, Move(p));
    ReachedNext(c, f0, s1, Move(p));
    assert s.pcs[p := ClaimLock(i)][p := ClaimCheck(i)] == s.pcs[p := ClaimCheck(i)];
  }

  /** A participant in the claim loop finds the entry busy. */
  lemma BusyTurn(c: Config, f0: seq<seq<Rec>>, s: State, w: seq<Rec>, busy: nat, pcs: seq<Pc>, p: nat, i: nat)
    returns (t: State)
    requires Reached(c, f0, s) && Scene(c, s, w, busy, pcs)
    requires p < |pcs| && pcs[p] == ClaimTest(i) && i % 2 == 0 && i <= c.Blocks() && i < busy
    ensures Reached(c, f0, t) && Scene(c, t, w, busy, pcs[p := ClaimTest(i + 2)])
  {
    hide Reached;
    var s1 := LockTurn(c, f0, s, p, i);
    var s2 := Next(c, s1, Move(p));
    ReachedNext(c, f0, s1, Move(p));
    t := Next(c, s2, Move(p));
    ReachedNext(c, f0, s2, Move(p));
    assert t == s.(pcs := pcs[p := ClaimTest(i + 2)]);
  }

  lemma {:induction false} BusyTurns(
    c: Config, f0: seq<seq<Rec>>, s: State, w: seq<Rec>, busy: nat, pcs: seq<Pc>, p: nat, i: nat, j: nat)
    returns (t: State)
    requires Reached(c, f0, s) && Scene(c, s, w, busy, pcs) && p < |pcs| && pcs[p] == ClaimTest(i)
    requires i % 2 == j % 2 == busy % 2 == 0 && i <= j <= busy && j <= c.Blocks() + 2
    ensures Reached(c, f0, t) && Scene(c, t, w, busy, pcs[p := ClaimTest(j)])
    decreases j - i
  {
    hide Reached, Scene;
    if i == j {
      assert pcs[p := ClaimTest(j)] == pcs;
      t := s;
    } else {
      var u := BusyTurn(c, f0, s, w, busy, pcs, p, i);
      t := BusyTurns(c, f0, u, w, busy, pcs[p := ClaimTest(i + 2)], p, i + 2, j);
      assert pcs[p := ClaimTest(i + 2)][p := ClaimTest(j)] == pcs[p := ClaimTest(j)];
    }
  }

  /** A participant claims the first free entry and goes to merge what it names. */
  lemma ClaimTurn(c: Config, f0: seq<seq<Rec>>, s: State, w: seq<Rec>, pcs: seq<Pc>, p: nat, i: nat, b: int)
    returns (t: State)
    requires Reached(c, f0, s) && Scene(c, s, w, i, pcs)
    requires p < |pcs| && pcs[p] == ClaimTest(i) && i % 2 == 0 && i <= c.Blocks()
    requires b == (if i < c.Blocks() then i else c.over.block) && b != -1
    ensures Reached(c, f0, t) && Scene(c, t, w, i + 2, pcs[p := Copy(b, c.Blocks(), ClaimLoop(i))])
  {
    hide Reached;
    var s1 := LockTurn(c, f0, s, p, i);
    var s2 := Next(c, s1, Move(p));
    ReachedNext(c, f0, s1, Move(p));
    var s3 := Next(c, s2, Move(p));
    ReachedNext(c, f0, s2, Move(p));
    t := Next(c, s3, Move(p));
    ReachedNext(c, f0, s3, Move(p));
    assert t == s.(pcs := pcs[p := Copy(b, c.Blocks(), ClaimLoop(i))], claims := SetBusy(s.claims, i), log := t.log);
  }

  /** It copies the two runs out. */
  lemma CopyTurn(c: Config, f0: seq<seq<Rec>>, s: State, w: seq<Rec>, busy: nat, pcs: seq<Pc>, p: nat, b: nat, i: nat)
    returns (t: State)
    requires Valid(c) && Reached(c, f0, s) && Scene(c, s, w, busy, pcs)
    requires p < |pcs| && p != 0 && pcs[p] == Copy(b, c.Blocks(), ClaimLoop(i)) && b + 2 <= c.Blocks()
    ensures var n := c.BlockLen();
      && b * n + 2 * n <= |w| && |Blk(w, n, b)| == |Blk(w, n, b + 1)| == n
      && Reached(c, f0, t) && Scene(c, t, w, busy, pcs[p :=
           Store(b, c.Blocks(), ClaimLoop(i), Blk(w, n, b), Blk(w, n, b + 1), 0, 0)])
  {
    hide Reached;
    AloneCopy(c, s, p, b, i);
    t := StepOf(c, s, p);
    hide Valid, StepOf, Blk, CanMove;
    ReachedNext(c, f0, s, Move(p));
  }

  /** It stores all that is left and goes on with the loop. */
  lemma FinishTurn(
    c: Config, f0: seq<seq<Rec>>, s: State, w: seq<Rec>, busy: nat, pcs: seq<Pc>, p: nat, i: nat, lo: nat
  ) returns (t: State)
    requires Reached(c, f0, s) && Scene(c, s, w, busy, pcs) && p < |pcs| && p != 0
    requires Underway(pcs[p]) && pcs[p].back == ClaimLoop(i) && lo == pcs[p].no * c.RunLen(pcs[p].runs)
    requires lo + |pcs[p].left| + |pcs[p].right| <= |w| && |Finished(w, lo, pcs[p])| == |w|
    ensures Reached(c, f0, t) && Scene(c, t, Finished(w, lo, pcs[p]), busy, pcs[p := ClaimTest(i + 2)])
  {
    var pc := pcs[p];
    var k: nat := |pc.left| + |pc.right| - pc.x - pc.y;
    assert InWindow(c, s, p, i, lo, k);
    AloneMerges(c, s, p, i, lo, k);
    hide Finished, InWindow, Alone, Reached;
    AloneReached(c, f0, s, p, k + 1);
    t := Alone(c, s, p, k + 1).value;
  }

  /** It claims the first free pair and merges it, which leaves the window as it is. */
  lemma MergeTurn(c: Config, f0: seq<seq<Rec>>, s: State, w: seq<Rec>, pcs: seq<Pc>, p: nat, i: nat)
    returns (t: State)
    requires Valid(c) && Reached(c, f0, s) && Scene(c, s, w, i, pcs)
    requires p < |pcs| && p != 0 && pcs[p] == ClaimTest(i) && i % 2 == 0 && i + 2 <= c.Blocks()
    requires Calm(w, c.BlockLen(), i)
    ensures Reached(c, f0, t) && Scene(c, t, w, i + 2, pcs[p := ClaimTest(i + 2)])
  {
    hide Reached;
    var u := ClaimTurn(c, f0, s, w, pcs, p, i, i);
    LoneMerge(c, u, p, i, i, c.BlockLen());
    hide Alone, PairMerged, Valid;
    AloneReached(c, f0, u, p, 2 * c.BlockLen() + 2);
    t := Alone(c, u, p, 2 * c.BlockLen() + 2).value;
    assert pcs[p := Copy(i, c.Blocks(), ClaimLoop(i))][p := ClaimTest(i + 2)] == pcs[p := ClaimTest(i + 2)];
  }

  /** Merging runs i and i + 1 of length n leaves w as it is. */
  ghost predicate Calm(w: seq<Rec>, n: nat, i: nat) {
    i * n + 2 * n <= |w| && PairMerged(w, n, i) == w
  }

  lemma {:induction false} MergeTurns(
    c: Config, f0: seq<seq<Rec>>, s: State, w: seq<Rec>, pcs: seq<Pc>, p: nat, i: nat, j: nat)
    returns (t: State)
    requires Valid(c) && Reached(c, f0, s) && Scene(c, s, w, i, pcs) && p < |pcs| && p != 0 && pcs[p] == ClaimTest(i)
    requires i % 2 == j % 2 == 0 && i <= j <= c.Blocks()
    requires forall k | i <= k < j && k % 2 == 0 :: Calm(w, c.BlockLen(), k)
    ensures Reached(c, f0, t) && Scene(c, t, w, j, pcs[p := ClaimTest(j)])
    decreases j - i
  {
    hide Reached, Scene, Calm, Valid;
    if i == j {
      assert pcs[p := ClaimTest(j)] == pcs;
      t := s;
    } else {
      var u := MergeTurn(c, f0, s, w, pcs, p, i);
      t := MergeTurns(c, f0, u, w, pcs[p := ClaimTest(i + 2)], p, i + 2, j);
      assert pcs[p := ClaimTest(i + 2)][p := ClaimTest(j)] == pcs[p := ClaimTest(j)];
    }
  }

  /** With every entry claimed a participant goes through the rest of the loop to the barrier. */
  lemma LeaveTurn(c: Config, f0: seq<seq<Rec>>, s: State, w: seq<Rec>, pcs: seq<Pc>, p: nat, i: nat)
    returns (t: State)
    requires Reached(c, f0, s) && Scene(c, s, w, c.Blocks() + 2, pcs) && c.Blocks() % 2 == 0
    requires p < |pcs| && pcs[p] == ClaimTest(i) && i % 2 == 0 && i <= c.Blocks() + 2
    ensures Reached(c, f0, t) && Scene(c, t, w, c.Blocks() + 2, pcs[p := Wait(RoundEnd)])
  {
    var j := c.Blocks() + 2;
    var u := BusyTurns(c, f0, s, w, j, pcs, p, i, j);
    hide Reached;
    t := Next(c, u, Move(p));
    ReachedNext(c, f0, u, Move(p));
    assert t == u.(pcs := u.pcs[p := Wait(RoundEnd)]);
    assert pcs[p := ClaimTest(j)][p := Wait(RoundEnd)] == pcs[p := Wait(RoundEnd)];
  }

  /** So do all others, from participant p on. */
  lemma {:induction false} AllLeave(c: Config, f0: seq<seq<Rec>>, s: State, w: seq<Rec>, pcs: seq<Pc>, p: nat)
    returns (t: State)
    requires Reached(c, f0, s) && Scene(c, s, w, c.Blocks() + 2, pcs) && c.Blocks() % 2 == 0 && p <= |pcs|
    requires forall q | 0 <= q < |pcs| :: pcs[q] == Wait(RoundEnd) || (p <= q && pcs[q] == ClaimTest(0))
    ensures Reached(c, f0, t) && Scene(c, t, w, c.Blocks() + 2, seq(|pcs|, _ => Wait(RoundEnd)))
    decreases |pcs| - p
  {
    hide Reached, Scene;
    if p == |pcs| {
      assert pcs == seq(|pcs|, _ => Wait(RoundEnd));
      t := s;
    } else if pcs[p] == Wait(RoundEnd) {
      t := AllLeave(c, f0, s, w, pcs, p + 1);
    } else {
      var u := LeaveTurn(c, f0, s, w, pcs, p, 0);
      t := AllLeave(c, f0, u, w, pcs[p := Wait(RoundEnd)], p + 1);
    }
  }

  // -------------------------------------------------------- a merge left half-way

  /** The window w with the first y records of run b replaced by those of r. */
  function Overlaid(w: seq<Rec>, lo: nat, r: seq<Rec>, y: nat): seq<Rec>
    requires lo + y <= |w| && y <= |r|
  {
    w[..lo] + r[..y] + w[lo + y..]
  }

  /** Every record of the right run goes before the left run. */
  ghost predicate RightFirst(left: seq<Rec>, right: seq<Rec>) {
    left != [] && forall k | 0 <= k < |right| :: !(left[0].mark < right[k].mark)
  }

  /** As long as the right run goes first, its records are stored one after the other. */
  lemma {:induction false} RightStores(
    c: Config, f0: seq<seq<Rec>>, s: State, w: seq<Rec>, busy: nat, pcs: seq<Pc>, p: nat, pc: Pc, lo: nat, y: nat)
    returns (t: State)
    requires Reached(c, f0, s) && p < |pcs| && p != 0 && pc.Store? && pc.x == 0
    requires y <= |pc.right| && lo == pc.no * c.RunLen(pc.runs) && lo + |pc.left| + |pc.right| <= |w|
    requires RightFirst(pc.left, pc.right)
    requires Scene(c, s, Overlaid(w, lo, pc.right, 0), busy, pcs[p := pc.(y := 0)])
    ensures Reached(c, f0, t) && Scene(c, t, Overlaid(w, lo, pc.right, y), busy, pcs[p := pc.(y := y)])
    decreases y
  {
    hide Reached;
    if y == 0 {
      t := s;
    } else {
      var u := RightStores(c, f0, s, w, busy, pcs, p, pc, lo, y - 1);
      var v := Overlaid(w, lo, pc.right, y - 1);
      StoreEffect(c, u, p);
      assert v[lo + y - 1 := pc.right[y - 1]] == Overlaid(w, lo, pc.right, y);
      t := Next(c, u, Move(p));
      ReachedNext(c, f0, u, Move(p));
      assert pcs[p := pc.(y := y - 1)][p := pc.(y := y)] == pcs[p := pc.(y := y)];
      hide Overlaid, StepMerge;
    }
  }
}
