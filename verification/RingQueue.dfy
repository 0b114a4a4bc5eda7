/** The message queue of ipc.c: a ring of MSG_MAX slots whose indices are wrapped lazily,
    just before they are used, and whose counters are unsigned 64-bit words. */
module RingQueue {
  import opened Base
  import opened Checksum
  import opened Messages

  /** msg_queue as a value. */
  datatype Ring = Ring(added: nat, extracted: nat, amount: nat, head: nat, tail: nat, buffer: seq<Msg>)

  function Wrap(i: nat): nat { if i == MSG_MAX then 0 else i }

  function Inc(x: nat): nat { (x + 1) % WORD }

  /** put_msg past its overflow test. */
  function Put(r: Ring, m: Msg): Ring
    requires |r.buffer| == MSG_MAX && r.head <= MSG_MAX
  {
    var h := Wrap(r.head);
    r.(buffer := r.buffer[h := m], head := h + 1, amount := r.amount + 1, added := Inc(r.added))
  }

  /** get_msg past its underflow test: the ring after it. */
  function Get(r: Ring): Ring
    requires |r.buffer| == MSG_MAX && r.tail <= MSG_MAX && r.amount > 0
  {
    r.(tail := Wrap(r.tail) + 1, amount := r.amount - 1, extracted := Inc(r.extracted))
  }

  /** The message get_msg hands out. */
  function Front(r: Ring): Msg
    requires |r.buffer| == MSG_MAX && r.tail <= MSG_MAX
  {
    r.buffer[Wrap(r.tail)]
  }

  const EMPTY_SLOT := Msg(0, 0, 0, seq(DATA_MAX, _ => 0))

  function Fresh(): Ring { Ring(0, 0, 0, 0, 0, seq(MSG_MAX, _ => EMPTY_SLOT)) }

  // ------------------------------------------------------------- what it means

  /** The slot of the k-th message ever put, counting from 0. */
  function Slot(k: nat): nat { k % MSG_MAX }

  /** The ring after the messages `puts` have been put and the first `taken` of them have
      been got: counters and indices agree modulo the ring size, and every message still in
      the queue is in its slot. */
  ghost predicate Holds(r: Ring, puts: seq<Msg>, taken: nat) {
    && |r.buffer| == MSG_MAX && taken <= |puts| <= taken + MSG_MAX
    && r.amount == |puts| - taken
    && r.added == |puts| % WORD && r.extracted == taken % WORD
    && r.head <= MSG_MAX && Wrap(r.head) == Slot(|puts|)
    && r.tail <= MSG_MAX && Wrap(r.tail) == Slot(taken)
    && forall k | taken <= k < |puts| :: r.buffer[Slot(k)] == puts[k]
  }

  /** The messages of a log of numbered messages. */
  function Bodies(log: seq<(nat, Msg)>): (m: seq<Msg>)
    ensures |m| == |log| && forall k | 0 <= k < |log| :: m[k] == log[k].1
  {
    seq(|log|, k requires 0 <= k < |log| => log[k].1)
  }

  lemma FreshHolds()
    ensures Holds(Fresh(), [], 0)
  {
  }

  /** Messages at most a ring apart never share a slot. */
  lemma SlotsDistinct(i: nat, j: nat)
    requires i < j < i + MSG_MAX
    ensures Slot(i) != Slot(j)
  {
  }

  lemma SlotNext(n: nat)
    ensures Slot(n) < MSG_MAX
    ensures Slot(n + 1) == if Slot(n) + 1 == MSG_MAX then 0 else Slot(n) + 1
  {
  }

  /** put_msg adds the message behind all others, gives out its number, and overwrites no
      message that is still in the queue. */
  lemma PutHolds(r: Ring, puts: seq<Msg>, taken: nat, m: Msg)
    requires Holds(r, puts, taken) && r.amount < MSG_MAX
    ensures Holds(Put(r, m), puts + [m], taken)
    ensures Put(r, m).added == (|puts| + 1) % WORD
  {
    var t := Put(r, m);
    var all := puts + [m];
    SlotNext(|puts|);
    NextCount(|puts|);
    hide Slot, Inc;
    forall k | taken <= k < |all|
      ensures t.buffer[Slot(k)] == all[k]
    {
      if k < |puts| {
        SlotNext(k);
        SlotsDistinct(k, |puts|);
      }
    }
  }

  /** get_msg hands out the oldest message and its number. */
  lemma GetHolds(r: Ring, puts: seq<Msg>, taken: nat)
    requires Holds(r, puts, taken) && r.amount > 0
    ensures Front(r) == puts[taken]
    ensures Holds(Get(r), puts, taken + 1)
    ensures Get(r).extracted == (taken + 1) % WORD
  {
    SlotNext(taken);
    NextCount(taken);
  }

  lemma NextCount(n: nat)
    ensures Inc(n % WORD) == (n + 1) % WORD
  {
  }

  /** The link between counters and indices survives the lazy wrap of the indices and the
      wrap of the counters at 2^64 alike, because the ring size divides 2^64. */
  lemma IndicesFollowCounters(r: Ring, puts: seq<Msg>, taken: nat)
    requires Holds(r, puts, taken)
    ensures r.head % MSG_MAX == r.added % MSG_MAX
    ensures r.tail % MSG_MAX == r.extracted % MSG_MAX
    ensures r.amount % MSG_MAX == (r.added - r.extracted) % MSG_MAX
  {
    CountModRing(|puts|);
    CountModRing(taken);
    SlotNext(|puts|);
    SlotNext(taken);
    DifferenceModRing(|puts|, taken);
  }

  lemma DifferenceModRing(n: nat, k: nat)
    ensures (n - k) % MSG_MAX == (n % WORD - k % WORD) % MSG_MAX
  {
    var i, j := n / WORD, k / WORD;
    var d := n % WORD - k % WORD;
    assert n - k == d + MSG_MAX * (0x10_0000_0000_0000 * (i - j));
  }

  lemma CountModRing(n: nat)
    ensures (n % WORD) % MSG_MAX == n % MSG_MAX
  {
    assert WORD == MSG_MAX * 0x10_0000_0000_0000;
  }

  // --------------------------------------------------------------- the code

  /** msg_queue and its operations as the program has them, on fields and a buffer. */
  class MsgQueue {
    var addCount: nat
    var extractCount: nat
    var msgAmount: nat
    var head: nat
    var tail: nat
    const buffer: array<Msg>

    function View(): Ring
      reads this, buffer
    {
      Ring(addCount, extractCount, msgAmount, head, tail, buffer[..])
    }

    ghost predicate Valid()
      reads this, buffer
    {
      buffer.Length == MSG_MAX && head <= MSG_MAX && tail <= MSG_MAX && msgAmount < MSG_MAX
    }

    /** msg_queue_init. */
    constructor ()
      ensures Valid() && fresh(buffer) && Holds(View(), [], 0)
    {
      addCount, extractCount, msgAmount, head, tail := 0, 0, 0, 0, 0;
      buffer := new Msg[MSG_MAX](_ => EMPTY_SLOT);
    }

    /** put_msg; None stands for the overflow exit, which leaves the queue as it was. */
    method PutMsg(m: Msg) returns (count: Option<nat>)
      requires Valid()
      modifies this, buffer
      ensures Valid()
      ensures count.None? <==> old(msgAmount) == MSG_MAX - 1
      ensures count.None? ==> View() == old(View())
      ensures count.Some? ==> View() == Put(old(View()), m) && count.value == addCount
      ensures forall puts: seq<Msg>, taken: nat | old(Holds(View(), puts, taken)) && count.Some? ::
        Holds(View(), puts + [m], taken) && count.value == (|puts| + 1) % WORD
    {
      if msgAmount == MSG_MAX - 1 {
        return None;
      }
      ghost var was := View();
      if head == MSG_MAX {
        head := 0;
      }
      buffer[head] := m;
      head := head + 1;
      msgAmount := msgAmount + 1;
      addCount := (addCount + 1) % WORD;
      count := Some(addCount);
      assert View() == Put(was, m);
      forall puts: seq<Msg>, taken: nat | Holds(was, puts, taken)
        ensures Holds(View(), puts + [m], taken) && count.value == (|puts| + 1) % WORD
      {
        PutHolds(was, puts, taken, m);
      }
    }

    /** get_msg; None stands for the underflow exit. */
    method GetMsg() returns (got: Option<(nat, Msg)>)
      requires Valid()
      modifies this
      ensures Valid()
      ensures got.None? <==> old(msgAmount) == 0
      ensures got.None? ==> View() == old(View())
      ensures got.Some? ==> View() == Get(old(View())) && got.value == (extractCount, Front(old(View())))
      ensures forall puts: seq<Msg>, taken: nat | old(Holds(View(), puts, taken)) && got.Some? ::
        taken < |puts| && Holds(View(), puts, taken + 1) && got.value == ((taken + 1) % WORD, puts[taken])
    {
      if msgAmount == 0 {
        return None;
      }
      ghost var was := View();
      if tail == MSG_MAX {
        tail := 0;
      }
      var m := buffer[tail];
      tail := tail + 1;
      msgAmount := msgAmount - 1;
      extractCount := (extractCount + 1) % WORD;
      got := Some((extractCount, m));
      assert View() == Get(was) && m == Front(was);
      forall puts: seq<Msg>, taken: nat | Holds(was, puts, taken)
        ensures taken < |puts| && Holds(View(), puts, taken + 1) && got.value == ((taken + 1) % WORD, puts[taken])
      {
        GetHolds(was, puts, taken);
      }
    }
  }
}
