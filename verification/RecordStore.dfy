/** The record file of LAB_7/p2: records of 161 bytes in slots of 168, read and written at
    computed offsets of a file that grows sparsely. The class is one session of the program;
    `slots` is what the file means. */
module RecordStore {
  import opened Base

  const RECORD_SIZE := 168
  const STRUCT_SIZE := 161
  const NUM_RECORDS := 15

  /** struct record_s as its bytes: name, address, semester. */
  type Record = r: seq<Byte> | |r| == STRUCT_SIZE witness seq(STRUCT_SIZE, _ => 0)

  const ZEROS: Record := seq(STRUCT_SIZE, _ => 0)

  // ---------------------------------------------------------- file operations

  /** What read() of one struct at the offset returns: as many bytes as there are. */
  function ReadAt(file: seq<Byte>, off: nat): (got: seq<Byte>)
    ensures |got| <= STRUCT_SIZE
  {
    if off >= |file| then []
    else if off + STRUCT_SIZE <= |file| then file[off..off + STRUCT_SIZE]
    else file[off..]
  }

  /** write() of one struct at the offset; a gap before it reads as zeros. */
  function WriteAt(file: seq<Byte>, off: nat, r: Record): (out: seq<Byte>)
    ensures |out| == if off + STRUCT_SIZE > |file| then off + STRUCT_SIZE else |file|
  {
    var padded := if off > |file| then file + seq(off - |file|, _ => 0) else file;
    padded[..off] + r + (if off + STRUCT_SIZE < |padded| then padded[off + STRUCT_SIZE..] else [])
  }

  // ------------------------------------------------------- what the file means

  function LengthFor(n: nat): nat {
    if n == 0 then 0 else RECORD_SIZE * (n - 1) + STRUCT_SIZE
  }

  /** Byte i of a file that holds the given slots: 7 zero bytes follow each record. */
  function ByteOf(slots: seq<Record>, i: nat): Byte
    requires i < LengthFor(|slots|)
  {
    if i % RECORD_SIZE < STRUCT_SIZE then slots[i / RECORD_SIZE][i % RECORD_SIZE] else 0
  }

  function Layout(slots: seq<Record>): (file: seq<Byte>)
    ensures |file| == LengthFor(|slots|)
  {
    seq(LengthFor(|slots|), i requires 0 <= i < LengthFor(|slots|) => ByteOf(slots, i))
  }

  /** The slots after a put into slot n: slots skipped on the way are zero records. */
  function PutSlot(slots: seq<Record>, n: nat, r: Record): (out: seq<Record>)
    ensures |out| == if n < |slots| then |slots| else n + 1
  {
    if n < |slots| then slots[n := r] else slots + seq(n - |slots|, _ => ZEROS) + [r]
  }

  /** A read is all or nothing: the whole record of an existing slot, or end of file. */
  lemma ReadSlot(slots: seq<Record>, n: nat)
    ensures ReadAt(Layout(slots), RECORD_SIZE * n) == if n < |slots| then slots[n] else []
  {
    if n < |slots| {
      var got := ReadAt(Layout(slots), RECORD_SIZE * n);
      forall k | 0 <= k < STRUCT_SIZE
        ensures got[k] == slots[n][k]
      {
        SlotByte(n, k);
        assert Layout(slots)[RECORD_SIZE * n + k] == ByteOf(slots, RECORD_SIZE * n + k);
      }
    }
  }

  lemma SlotByte(n: nat, k: nat)
    requires k < RECORD_SIZE
    ensures (RECORD_SIZE * n + k) / RECORD_SIZE == n && (RECORD_SIZE * n + k) % RECORD_SIZE == k
  {
  }

  /** A write of the struct at its offset is a put into the slot. */
  lemma WriteSlot(slots: seq<Record>, n: nat, r: Record)
    ensures WriteAt(Layout(slots), RECORD_SIZE * n, r) == Layout(PutSlot(slots, n, r))
  {
    var off := RECORD_SIZE * n;
    var out, want := WriteAt(Layout(slots), off, r), PutSlot(slots, n, r);
    forall i | 0 <= i < |out|
      ensures out[i] == Layout(want)[i]
    {
      var q, k := i / RECORD_SIZE, i % RECORD_SIZE;
      SlotByte(q, k);
      assert i == RECORD_SIZE * q + k;
      assert Layout(want)[i] == ByteOf(want, i);
      if off <= i < off + STRUCT_SIZE {
        assert out[i] == r[i - off];
        SlotByte(n, i - off);
      } else if i < |Layout(slots)| {
        assert out[i] == Layout(slots)[i] == ByteOf(slots, i);
      }
    }
  }

  // ------------------------------------------------------ any sequence of puts

  /** The slots after a sequence of puts into an empty file. */
  function AfterPuts(log: seq<(nat, Record)>): seq<Record> {
    if log == [] then []
    else PutSlot(AfterPuts(log[..|log| - 1]), log[|log| - 1].0, log[|log| - 1].1)
  }

  /** The record of the last put into slot n, if there was one. */
  function LastPut(log: seq<(nat, Record)>, n: nat): Option<Record> {
    if log == [] then None
    else if log[|log| - 1].0 == n then Some(log[|log| - 1].1)
    else LastPut(log[..|log| - 1], n)
  }

  /** Slot n exists once some put has gone to it or beyond it; it holds the last record put
      there, or zeros if it was only skipped. */
  lemma {:induction false} LastPutWins(log: seq<(nat, Record)>, n: nat)
    ensures n < |AfterPuts(log)| <==> exists k | 0 <= k < |log| :: n <= log[k].0
    ensures n < |AfterPuts(log)| ==>
      AfterPuts(log)[n] == match LastPut(log, n) case Some(r) => r case None => ZEROS
    ensures n >= |AfterPuts(log)| ==> LastPut(log, n).None?
  {
    if log != [] {
      var init, last := log[..|log| - 1], log[|log| - 1];
      LastPutWins(init, n);
      if n < |AfterPuts(log)| {
        if n <= last.0 {
          assert n <= log[|log| - 1].0;
        } else {
          var k :| 0 <= k < |init| && n <= init[k].0;
          assert n <= log[k].0;
        }
      }
    }
  }

  /** The bytes of the file after the same puts, each written at its offset. */
  function FileAfter(log: seq<(nat, Record)>): seq<Byte> {
    if log == [] then []
    else WriteAt(FileAfter(log[..|log| - 1]), RECORD_SIZE * log[|log| - 1].0, log[|log| - 1].1)
  }

  lemma {:induction false} FileHoldsPuts(log: seq<(nat, Record)>)
    ensures FileAfter(log) == Layout(AfterPuts(log))
  {
    if log != [] {
      FileHoldsPuts(log[..|log| - 1]);
      WriteSlot(AfterPuts(log[..|log| - 1]), log[|log| - 1].0, log[|log| - 1].1);
    }
  }

  /** Reading bytes back after any sequence of puts: the last record put into the slot, zeros
      for a slot that was skipped, end of file for one never reached. */
  lemma StoreReadsBack(log: seq<(nat, Record)>, n: nat)
    ensures ReadAt(FileAfter(log), RECORD_SIZE * n) ==
      if !exists k | 0 <= k < |log| :: n <= log[k].0 then []
      else if LastPut(log, n).Some? then LastPut(log, n).value
      else ZEROS
    ensures |FileAfter(log)| == LengthFor(|AfterPuts(log)|)
  {
    FileHoldsPuts(log);
    ReadSlot(AfterPuts(log), n);
    LastPutWins(log, n);
  }

  // -------------------------------------------------------------- the program

  class Session {
    var file: seq<Byte>
    var record: Record
    var recordNum: int
    ghost var slots: seq<Record>

    ghost predicate Valid()
      reads this
    {
      file == Layout(slots)
    }

    /** A session on a file that holds the given slots. */
    constructor (ghost was: seq<Record>, bytes: seq<Byte>, garbage: Record)
      requires bytes == Layout(was)
      ensures Valid() && slots == was && recordNum == -1 && record == garbage
    {
      file, record, recordNum, slots := bytes, garbage, -1, was;
    }

    /** get_record into a struct that holds `was`: 0 and the whole record, or -1 and the
        struct as it was. */
    method GetRecord(n: int, was: Record) returns (res: int, got: Record)
      requires Valid()
      ensures res == 0 || res == -1
      ensures res == 0 <==> 0 <= n < |slots|
      ensures got == if res == 0 then slots[n] else was
    {
      if n * RECORD_SIZE < 0 {
        return -1, was;
      }
      ReadSlot(slots, n);
      var bytes := ReadAt(file, n * RECORD_SIZE);
      if |bytes| <= 0 {
        return -1, was;
      }
      return 0, bytes + was[|bytes|..];
    }

    /** put_record: nothing happens for a negative slot, which lseek refuses. Every other slot
        stays as it was, and slots created on the way are zero. */
    method PutRecord(n: int, r: Record)
      requires Valid()
      modifies this`file, this`slots
      ensures Valid()
      ensures slots == if n >= 0 then PutSlot(old(slots), n, r) else old(slots)
      ensures n >= 0 ==> n < |slots| && forall k | 0 <= k < |slots| ::
        slots[k] == if k == n then r else if k < |old(slots)| then old(slots)[k] else ZEROS
    {
      if n * RECORD_SIZE < 0 {
        return;
      }
      WriteSlot(slots, n, r);
      file := WriteAt(file, n * RECORD_SIZE, r);
      slots := PutSlot(slots, n, r);
    }

    /** ADD, with the record the user types in: it goes to the first slot past the last one,
        as long as that is below NUM_RECORDS. */
    method Add(typed: Record)
      requires Valid()
      modifies this
      ensures Valid()
      ensures |old(slots)| < NUM_RECORDS ==>
        recordNum == |old(slots)| && slots == old(slots) + [typed] && record == typed
      ensures |old(slots)| >= NUM_RECORDS ==>
        recordNum == -1 && slots == old(slots) && record == old(slots)[NUM_RECORDS - 1]
    {
      recordNum := -1;
      for i := 0 to NUM_RECORDS
        invariant Valid() && slots == old(slots) && recordNum == -1 && i <= |slots|
        invariant i > 0 ==> record == slots[i - 1]
      {
        var res;
        res, record := GetRecord(i, record);
        if res != 0 {
          recordNum := i;
          break;
        }
      }
      if recordNum != -1 {
        record := typed;
        PutRecord(recordNum, record);
      }
    }

    /** LST: the records of the slots before the first one that does not exist. The struct it
        reads them into is its own. */
    method List(garbage: Record) returns (shown: seq<Record>)
      requires Valid()
      ensures shown == if |slots| < NUM_RECORDS then slots else slots[..NUM_RECORDS]
    {
      shown := [];
      var own := garbage;
      for i := 0 to NUM_RECORDS
        invariant i <= |slots| && shown == slots[..i]
      {
        var res;
        res, own := GetRecord(i, own);
        if res != 0 {
          return;
        }
        shown := shown + [own];
      }
    }

    /** GET: the number is kept even if there is no such record, and then the struct keeps
        what it held. */
    method Get(n: int)
      requires Valid()
      modifies this`recordNum, this`record
      ensures recordNum == n && record == if 0 <= n < |slots| then slots[n] else old(record)
    {
      recordNum := n;
      var _, got := GetRecord(n, record);
      record := got;
    }

    /** PUT: the struct goes to the slot named last, whether or not it existed. */
    method Put()
      requires Valid()
      modifies this`file, this`slots
      ensures Valid()
      ensures slots == if recordNum >= 0 then PutSlot(old(slots), recordNum, record) else old(slots)
    {
      if recordNum == -1 {
        return;
      }
      PutRecord(recordNum, record);
    }
  }
}
