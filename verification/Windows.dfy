/** The record file as the windows openFile maps one after the other. */
module Windows {
  import opened Base
  import opened Runs
  import opened Blocks

  /** The file cut into windows of m records. */
  function Cut(f: seq<Rec>, m: nat): seq<seq<Rec>>
    requires m > 0
  {
    if |f| < m then [] else [f[..m]] + Cut(f[m..], m)
  }

  function Join(w: seq<seq<Rec>>): seq<Rec> {
    if w == [] then [] else w[0] + Join(w[1..])
  }

  /** Window j holds the records from j * m on; the windows tile a file of n * m records. */
  lemma {:induction false} CutWindows(f: seq<Rec>, m: nat, n: nat)
    requires m > 0 && |f| == n * m
    ensures |Cut(f, m)| == n
    ensures forall j | 0 <= j < n :: |Cut(f, m)[j]| == m && Cut(f, m)[j] == Blk(f, m, j)
    decreases n
  {
    if n > 0 {
      MulMonotone(1, n, m);
      assert |f[m..]| == (n - 1) * m;
      CutWindows(f[m..], m, n - 1);
      forall j | 0 <= j < n
        ensures |Cut(f, m)[j]| == m && Cut(f, m)[j] == Blk(f, m, j)
      {
        if j > 0 {
          NextBlock(f[..m], f[m..], m, n, j);
          assert f == f[..m] + f[m..];
          assert Cut(f, m)[j] == Cut(f[m..], m)[j - 1];
        }
      }
    }
  }

  /** Block j of a row is block j - 1 of the rest of the row. */
  lemma NextBlock(head: seq<Rec>, rest: seq<Rec>, m: nat, n: nat, j: nat)
    requires |head| == m && |rest| == (n - 1) * m && 0 < j < n
    ensures Blk(head + rest, m, j) == Blk(rest, m, j - 1)
  {
    MulMonotone(j, n - 1, m);
    assert (j - 1) * m + m == j * m;
  }

  lemma {:induction false} JoinWindows(w: seq<seq<Rec>>, m: nat)
    requires m > 0 && forall j | 0 <= j < |w| :: |w[j]| == m
    ensures |Join(w)| == |w| * m
    ensures forall j | 0 <= j < |w| :: Blk(Join(w), m, j) == w[j]
  {
    if w != [] {
      var r, n := Join(w[1..]), |w|;
      JoinWindows(w[1..], m);
      assert n * m == m + (n - 1) * m;
      forall j | 0 <= j < n
        ensures Blk(w[0] + r, m, j) == w[j]
      {
        if j > 0 {
          NextBlock(w[0], r, m, n, j);
          assert Blk(r, m, j - 1) == w[1..][j - 1];
        } else {
          MulMonotone(0, n - 1, m);
          assert (w[0] + r)[0..m] == w[0];
        }
      }
    }
  }

  /** Cutting loses nothing. */
  lemma {:induction false} JoinCut(f: seq<Rec>, m: nat, n: nat)
    requires m > 0 && |f| == n * m
    ensures Join(Cut(f, m)) == f
    decreases n
  {
    if n > 0 {
      MulMonotone(1, n, m);
      assert |f[m..]| == (n - 1) * m;
      JoinCut(f[m..], m, n - 1);
      assert Cut(f, m)[1..] == Cut(f[m..], m);
    }
  }

  // -------------------------------------------------------- addresses in the file

  const HEADER := 8
  const RECORD := 16

  /** The byte of the file at which global record r starts. */
  function RecordByte(r: nat): nat { HEADER + RECORD * r }

  /** Conversion of an unsigned long to int. */
  function ToInt(x: nat): int {
    var r := x % 0x1_0000_0000;
    if r < 0x8000_0000 then r else r - 0x1_0000_0000
  }

  /** The offset openFile passes to mmap when curSize records have been done. */
  function MapOffset(curSize: nat): int { ToInt(curSize * RECORD) }

  /** idx[j] of a mapping is always the record curSize + j of the file, header and all, just
      as long as the offset in bytes fits an int; past that it is never the right record. */
  lemma MappedRecord(curSize: nat, j: nat)
    ensures MapOffset(curSize) + HEADER + RECORD * j == RecordByte(curSize + j) <==> curSize * RECORD < 0x8000_0000
  {
    var x := curSize * RECORD;
    assert RecordByte(curSize + j) == HEADER + x + RECORD * j;
    var k := x / 0x1_0000_0000;
    assert x == k * 0x1_0000_0000 + x % 0x1_0000_0000;
  }

  /** Chunk n of memsize records is mapped at an offset that is a multiple of the page size
      whenever memsize is, which main has checked. */
  lemma ChunkOffsetAligned(memsize: nat, page: nat, n: nat)
    requires page > 0 && memsize % page == 0
    ensures (n * memsize * RECORD) % page == 0
  {
    var k := memsize / page;
    assert memsize == page * k;
    assert n * memsize * RECORD == page * (n * k * RECORD);
    QuotientUnique(n * memsize * RECORD, page, n * k * RECORD);
  }
}
