/** Messages and what producers and consumers do to them. */
module Messages {
  import opened Checksum

  const MSG_MAX: nat := 4096
  const CHILD_MAX := 1024

  /** msg_t: type, checksum, size and data as the program leaves them. */
  datatype Msg = Msg(kind: int, hash: nat, size: nat, data: seq<int>)

  function HashOf(m: Msg): nat { Accumulated(m.size + 4) % HALF }

  /** The check of consume_msg would pass. */
  predicate Sound(m: Msg) { m.hash == HashOf(m) }

  /** produce_msg with rand() % 257 == value: 256 marks the message and leaves its size as it
      was; any other value becomes the size. */
  function Produced(m: Msg, value: nat, data: seq<int>): Msg {
    var sized := if value == 256 then m.(kind := -1, data := data) else m.(kind := 0, size := value, data := data);
    sized.(hash := HashOf(sized))
  }

  const DATA_MAX := 256

  /** A message buffer in the hands of one thread. */
  class Buffer {
    var kind: int
    var hash: nat
    var size: nat
    const data: array<int>

    constructor ()
      ensures fresh(data) && data.Length == DATA_MAX
    {
      kind, hash, size := 0, 0, 0;
      data := new int[DATA_MAX];
    }

    function View(): Msg
      reads this, data
    {
      Msg(kind, hash, size, data[..])
    }

    /** produce_msg, the random numbers given. */
    method Produce(value: nat, bytes: seq<int>)
      requires value <= 256 && |bytes| == value && data.Length == DATA_MAX
      modifies this, data
      ensures View() == Produced(old(View()), value, bytes + old(data[value..]))
      ensures Sound(View())
    {
      if value == 256 {
        kind := -1;
      } else {
        kind := 0;
        size := value;
      }
      for i := 0 to value
        invariant data[..i] == bytes[..i] && data[value..] == old(data[value..])
        invariant kind == (if value == 256 then -1 else 0) && size == (if value == 256 then old(size) else value)
      {
        data[i] := bytes[i];
      }
      assert data[..] == data[..value] + data[value..];
      hash := 0;
      hash := Hash(size);
    }

    /** consume_msg: the stored checksum is taken out, compared and put back. */
    method Consume() returns (mismatch: bool)
      modifies this`hash
      ensures View() == old(View())
      ensures mismatch <==> !Sound(View())
    {
      var msgHash := hash;
      hash := 0;
      var checkSum := Hash(size);
      mismatch := msgHash != checkSum;
      hash := msgHash;
    }
  }
}
