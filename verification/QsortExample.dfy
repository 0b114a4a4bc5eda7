/** A sorting function of the kind the thread model asks of qsort, and a configuration that
    uses it: the assumptions of the theorems can be met. */
module QsortExample {
  import opened Base
  import opened Runs
  import opened ArgCheck
  import opened SortModel
  import opened SortTheorems
  import opened SortTermination

  function Insert(x: Rec, s: seq<Rec>): (r: seq<Rec>)
    ensures multiset(r) == multiset(s) + multiset{x}
  {
    if s == [] || x.mark <= s[0].mark then [x] + s
    else assert s == [s[0]] + s[1..]; [s[0]] + Insert(x, s[1..])
  }

  function InsertionSort(s: seq<Rec>): (r: seq<Rec>)
    ensures multiset(r) == multiset(s)
  {
    if s == [] then [] else assert s == [s[0]] + s[1..]; Insert(s[0], InsertionSort(s[1..]))
  }

  lemma {:induction false} InsertSorted(x: Rec, s: seq<Rec>)
    requires Sorted(s)
    ensures Sorted(Insert(x, s))
  {
    if s != [] && !(x.mark <= s[0].mark) {
      InsertSorted(x, s[1..]);
      var r := Insert(x, s[1..]);
      forall i | 0 <= i < |r|
        ensures s[0].mark <= r[i].mark
      {
        assert r[i] in multiset(r);
        assert r[i] == x || r[i] in multiset(s[1..]);
        assert r[i] == x || r[i] in s[1..];
      }
    }
  }

  lemma {:induction false} InsertionSortSorts(s: seq<Rec>)
    ensures Sorted(InsertionSort(s))
  {
    if s != [] {
      InsertionSortSorts(s[1..]);
      InsertSorted(s[0], InsertionSort(s[1..]));
    }
  }

  lemma InsertFirst(s: seq<Rec>)
    requires s != [] && Sorted(s)
    ensures Insert(s[0], s[1..]) == s && Sorted(s[1..])
  {
    assert s == [s[0]] + s[1..];
  }

  lemma {:induction false} SortedStays(s: seq<Rec>)
    requires Sorted(s)
    ensures InsertionSort(s) == s
  {
    if s != [] {
      InsertFirst(s);
      hide Insert, Sorted;
      SortedStays(s[1..]);
    }
  }

  lemma QsortExists()
    ensures SortsBlocks(InsertionSort) && Settles(InsertionSort)
  {
    forall s
      ensures Sorted(InsertionSort(s)) && InsertionSort(InsertionSort(s)) == InsertionSort(s)
    {
      InsertionSortSorts(s);
      SortedStays(InsertionSort(s));
    }
  }

  /** Eight workers, sixteen blocks of 256 records, and a busy word past the map. */
  const SMALL := Config(8, 4096, 4, InsertionSort, Entry(true, 16))

  lemma SmallIsValid(e: Entry)
    ensures Valid(SMALL.(over := e)) && SMALL.Blocks() == 16 && Settles(SMALL.qsort)
    ensures Accepted(4, SMALL.memsize, SMALL.Blocks(), SMALL.amount, 4096)
  {
    assert Pow2(4) == 2 * Pow2(3) && Pow2(3) == 2 * Pow2(2) && Pow2(2) == 2 * Pow2(1) && Pow2(1) == 2;
    QsortExists();
    assert PowerOfTwo(Pow2(4));
  }

  lemma SmallRunEnds(f0: seq<seq<Rec>>)
    requires Tiled(SMALL, f0) && |f0| <= 0x8000
    ensures exists s :: Reachable(SMALL, f0, s) && AllDone(s)
  {
    SmallIsValid(SMALL.over);
    assert SMALL.(over := SMALL.over) == SMALL;
    CompleteRunExists(SMALL, f0);
  }
}
