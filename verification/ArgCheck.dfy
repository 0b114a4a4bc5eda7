/** The argument check in main of sort_index.c, and what it secures for createThreads. */
module ArgCheck {
  import opened Base
  import opened Runs
  import opened SortModel

  ghost predicate PowerOfTwo(x: int) {
    exists e: nat :: x == Pow2(e)
  }

  lemma HalveKeepsPower(x: int)
    requires x != 1 && x % 2 == 0
    ensures PowerOfTwo(x) <==> PowerOfTwo(x / 2)
  {
    if PowerOfTwo(x) {
      var e: nat :| x == Pow2(e);
      assert e > 0 && x / 2 == Pow2(e - 1);
    }
    if PowerOfTwo(x / 2) {
      var e: nat :| x / 2 == Pow2(e);
      assert x == Pow2(e + 1);
    }
  }

  lemma OddIsNoPower(x: int)
    requires x != 1 && x % 2 != 0
    ensures !PowerOfTwo(x)
  {
  }

  /** The arguments up to `blocks` pass the tests before the power-of-two loop. */
  predicate SizesGiven(argc: int, memsize: int, blocks: int, page: nat)
    requires page > 0
  {
    argc >= 4 && memsize != 0 && memsize % page == 0 && blocks != 0
  }

  /** The arguments with which createThreads is called. */
  ghost predicate Accepted(argc: int, memsize: int, blocks: int, threads: int, page: nat)
    requires page > 0
  {
    && SizesGiven(argc, memsize, blocks, page) && PowerOfTwo(blocks)
    && MIN_THREADS <= threads <= MAX_THREADS && threads < blocks
  }

  /** Return code of the check; 0 means createThreads is called. The loop halves a copy of
      `blocks` until it is 1 or odd, and ends for every non-zero start, negative ones too. */
  method CheckArgs(argc: int, memsize: int, blocks: int, threads: int, page: nat) returns (code: int)
    requires page > 0
    ensures code == 0 <==> Accepted(argc, memsize, blocks, threads, page)
    ensures code == -4 <==> SizesGiven(argc, memsize, blocks, page) && !PowerOfTwo(blocks)
    ensures code == -6 <==>
      SizesGiven(argc, memsize, blocks, page) && PowerOfTwo(blocks)
      && MIN_THREADS <= threads <= MAX_THREADS && blocks <= threads
    ensures code == -5 <==>
      SizesGiven(argc, memsize, blocks, page) && PowerOfTwo(blocks)
      && threads != 0 && !(MIN_THREADS <= threads <= MAX_THREADS)
    ensures code == -1 <==> argc < 4
    ensures code == -3 <==> argc >= 4 && memsize != 0 && memsize % page != 0
    ensures code == -2 <==>
      argc >= 4 && (memsize == 0 || (memsize % page == 0 && (blocks == 0 || (PowerOfTwo(blocks) && threads == 0))))
  {
    if argc < 4 {
      return -1;
    }
    if memsize == 0 {
      return -2;
    }
    if memsize % page != 0 {
      return -3;
    }
    if blocks == 0 {
      return -2;
    }
    var tmp := blocks;
    while tmp != 1
      invariant tmp != 0 && (PowerOfTwo(tmp) <==> PowerOfTwo(blocks))
      decreases if tmp < 0 then -tmp else tmp
    {
      if tmp % 2 != 0 {
        OddIsNoPower(tmp);
        return -4;
      }
      HalveKeepsPower(tmp);
      tmp := tmp / 2;
    }
    assert PowerOfTwo(tmp) by { assert Pow2(0) == 1; }
    if threads == 0 {
      return -2;
    }
    if threads < MIN_THREADS {
      return -5;
    }
    if threads > MAX_THREADS {
      return -5;
    }
    if threads >= blocks {
      return -6;
    }
    return 0;
  }

  /** Accepted arguments make a valid configuration as long as memsize is positive and the
      number of blocks does not exceed a page; then the blocks tile the window. */
  lemma AcceptedArgsAreValid(
    argc: int, memsize: int, threads: nat, order: nat, k: nat, q: seq<Rec> -> seq<Rec>, over: Entry)
    requires order <= k && memsize > 0 && Accepted(argc, memsize, Pow2(order), threads, Pow2(k)) && SortsBlocks(q)
    ensures Valid(Config(threads, memsize, order, q, over))
  {
    Pow2Divides(memsize, order, k);
  }

  /** That bound is exact: for a given number of blocks that the check accepts, the blocks tile
      every positive memsize it accepts just when they are no more than a page. */
  lemma AcceptedTilesIff(argc: int, threads: nat, order: nat, k: nat)
    requires argc >= 4 && MIN_THREADS <= threads <= MAX_THREADS && threads < Pow2(order)
    ensures (forall memsize: int | memsize > 0 && Accepted(argc, memsize, Pow2(order), threads, Pow2(k)) ::
               memsize % Pow2(order) == 0)
      <==> order <= k
  {
    if order <= k {
      forall memsize: int | memsize > 0 && Accepted(argc, memsize, Pow2(order), threads, Pow2(k))
        ensures memsize % Pow2(order) == 0
      {
        Pow2Divides(memsize, order, k);
      }
    } else {
      Pow2Monotone(k, order);
      SmallRemainder(Pow2(k), Pow2(order));
      assert Accepted(argc, Pow2(k), Pow2(order), threads, Pow2(k));
    }
  }

  lemma SmallRemainder(a: nat, b: nat)
    requires 0 < a < b
    ensures a % a == 0 && a % b == a
  {
  }
}
