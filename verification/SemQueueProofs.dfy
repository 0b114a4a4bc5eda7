/** The invariant of the semaphore queue is kept by every step; what follows from it. */
module SemQueueProofs {
  import opened Base
  import opened Checksum
  import opened Messages
  import opened RingQueue
  import opened SemQueue

  /** What a producer's step gives with one hand it takes with the other. */
  lemma ProduceDelta(c: Config, s: State, i: nat, value: nat, data: seq<int>)
    requires Valid(c) && Enabled(s, Produce(i, value, data)) && Shaped(s.ring) && s.ring.amount <= c.guard
    ensures var t := ProducerStep(c, s, i, value, data);
      && |t.producers| == |s.producers| && t.producers == s.producers[i := t.producers[i]] && t.consumers == s.consumers
      && t.space + HoldsSpace(t.producers[i]) + t.ring.amount == s.space + HoldsSpace(s.producers[i]) + s.ring.amount
      && t.ring.amount - t.items - OwesItem(t.producers[i]) == s.ring.amount - s.items - OwesItem(s.producers[i])
      && t.ring.amount <= c.guard
  {
    hide Produced;
  }

  lemma ProduceCounts(c: Config, s: State, i: nat, value: nat, data: seq<int>)
    requires Valid(c) && Inv(c, s) && Enabled(s, Produce(i, value, data))
    ensures var t := ProducerStep(c, s, i, value, data);
      SpaceConserved(c, t) && ItemsConserved(t) && t.ring.amount <= c.guard
  {
    var t := ProducerStep(c, s, i, value, data);
    assert Shaped(s.ring);
    ProduceDelta(c, s, i, value, data);
    hide Exclusive, Fifo, SoundHands, ProducerStep, Enabled, HoldsSpace, OwesItem, Sum;
    SumUpdate(s.producers, i, t.producers[i], HoldsSpace);
    SumUpdate(s.producers, i, t.producers[i], OwesItem);
  }

  lemma ConsumeDelta(s: State, i: nat)
    requires Enabled(s, Consume(i)) && Shaped(s.ring)
    ensures var t := ConsumerStep(s, i);
      && |t.consumers| == |s.consumers| && t.consumers == s.consumers[i := t.consumers[i]] && t.producers == s.producers
      && t.space + OwesSpace(t.consumers[i]) + t.ring.amount == s.space + OwesSpace(s.consumers[i]) + s.ring.amount
      && t.ring.amount - t.items - HoldsItem(t.consumers[i]) == s.ring.amount - s.items - HoldsItem(s.consumers[i])
      && t.ring.amount <= s.ring.amount
  {
    hide Sound;
  }

  lemma ConsumeCounts(c: Config, s: State, i: nat)
    requires Valid(c) && Inv(c, s) && Enabled(s, Consume(i))
    ensures var t := ConsumerStep(s, i);
      SpaceConserved(c, t) && ItemsConserved(t) && t.ring.amount <= c.guard
  {
    var t := ConsumerStep(s, i);
    assert Shaped(s.ring);
    ConsumeDelta(s, i);
    hide Exclusive, Fifo, SoundHands, ConsumerStep, Enabled, HoldsItem, OwesSpace, Sum;
    SumUpdate(s.consumers, i, t.consumers[i], HoldsItem);
    SumUpdate(s.consumers, i, t.consumers[i], OwesSpace);
  }

  /** Places and messages are conserved by every step, creation and cancellation included. */
  lemma CountsKept(c: Config, s: State, a: Act)
    requires Valid(c) && Inv(c, s) && Enabled(s, a)
    ensures SpaceConserved(c, Next(c, s, a)) && ItemsConserved(Next(c, s, a))
    ensures Next(c, s, a).ring.amount <= c.guard
  {
    hide Exclusive, Fifo, SoundHands, ProducerStep, ConsumerStep, Sum;
    match a
    case Produce(i, value, data) => ProduceCounts(c, s, i, value, data);
    case Consume(i) => ConsumeCounts(c, s, i);
    case CreateProducer(m) =>
      SumAppend(s.producers, Producer(Making, m, 0), HoldsSpace);
      SumAppend(s.producers, Producer(Making, m, 0), OwesItem);
    case CreateConsumer(m) =>
      SumAppend(s.consumers, Consumer(WaitItems, m, 0), HoldsItem);
      SumAppend(s.consumers, Consumer(WaitItems, m, 0), OwesSpace);
    case RemoveProducer =>
    case RemoveConsumer =>
    case ProducerDies =>
      SumDropLast(s.producers, HoldsSpace);
      SumDropLast(s.producers, OwesItem);
    case ConsumerDies =>
      SumDropLast(s.consumers, HoldsItem);
      SumDropLast(s.consumers, OwesSpace);
  }

  lemma ProduceExclusive(c: Config, s: State, i: nat, value: nat, data: seq<int>)
    requires Exclusive(s) && Enabled(s, Produce(i, value, data))
    ensures Exclusive(ProducerStep(c, s, i, value, data))
  {
    hide Put, Produced;
  }

  lemma ConsumeExclusive(c: Config, s: State, i: nat)
    requires Exclusive(s) && Enabled(s, Consume(i))
    ensures Exclusive(ConsumerStep(s, i))
  {
    hide Get, Front, Sound;
  }

  lemma ExclusiveKept(c: Config, s: State, a: Act)
    requires Inv(c, s) && Enabled(s, a)
    ensures Exclusive(Next(c, s, a))
  {
    hide Fifo, SoundHands, SpaceConserved, ItemsConserved, ProducerStep, ConsumerStep;
    match a
    case Produce(i, value, data) => ProduceExclusive(c, s, i, value, data);
    case Consume(i) => ConsumeExclusive(c, s, i);
    case _ =>
  }

  /** get_msg is never called on an empty queue: the caller holds an item. */
  lemma GetterFindsMessage(c: Config, s: State, i: nat)
    requires Inv(c, s) && i < |s.consumers| && s.consumers[i].pc == Getting
    ensures s.ring.amount > 0
  {
    SumAtLeast(s.consumers, i, HoldsItem);
    SumBounds(s.producers, OwesItem, 0, 1);
  }

  lemma ProduceFifo(c: Config, s: State, i: nat, value: nat, data: seq<int>)
    requires Valid(c) && Fifo(s) && SoundHands(s) && s.ring.amount <= c.guard && Enabled(s, Produce(i, value, data))
    ensures var t := ProducerStep(c, s, i, value, data); Fifo(t) && (s.exit != Underflow ==> t.exit != Underflow)
  {
    var t := ProducerStep(c, s, i, value, data);
    assert Shaped(s.ring);
    if s.producers[i].pc == Putting && s.ring.amount != c.guard {
      PutHolds(s.ring, Bodies(s.puts), |s.gets|, s.producers[i].msg);
      assert Bodies(t.puts) == Bodies(s.puts) + [s.producers[i].msg];
    }
    hide Holds, HashOf, Produced;
  }

  lemma ConsumeFifo(c: Config, s: State, i: nat)
    requires Inv(c, s) && Enabled(s, Consume(i))
    ensures var t := ConsumerStep(s, i); Fifo(t) && t.exit != Underflow
  {
    assert Shaped(s.ring);
    if s.consumers[i].pc == Getting {
      GetterFindsMessage(c, s, i);
      GetHolds(s.ring, Bodies(s.puts), |s.gets|);
    }
    hide Holds, HashOf, SpaceConserved, ItemsConserved, Exclusive;
  }

  lemma FifoKept(c: Config, s: State, a: Act)
    requires Valid(c) && Inv(c, s) && Enabled(s, a)
    ensures Fifo(Next(c, s, a)) && Next(c, s, a).exit != Underflow
  {
    hide SpaceConserved, ItemsConserved, Exclusive, SoundHands, ProducerStep, ConsumerStep, Holds;
    match a
    case Produce(i, value, data) => ProduceFifo(c, s, i, value, data);
    case Consume(i) => ConsumeFifo(c, s, i);
    case _ =>
  }

  lemma HandsKept(c: Config, s: State, a: Act)
    requires Valid(c) && Inv(c, s) && Enabled(s, a)
    ensures SoundHands(Next(c, s, a))
  {
    hide SpaceConserved, ItemsConserved, Exclusive;
    assert Shaped(s.ring);
    if a.Consume? && s.consumers[a.i].pc == Getting {
      GetterFindsMessage(c, s, a.i);
      GetHolds(s.ring, Bodies(s.puts), |s.gets|);
    }
    hide Holds, HashOf;
  }

  lemma ThreadsKept(c: Config, s: State, a: Act)
    requires Inv(c, s) && Enabled(s, a)
    ensures var t := Next(c, s, a);
      && |t.producers| < CHILD_MAX && |t.consumers| < CHILD_MAX
      && (t.main == JoiningProducer ==> t.producers != []) && (t.main == JoiningConsumer ==> t.consumers != [])
  {
    hide SpaceConserved, ItemsConserved, Exclusive, Fifo, SoundHands, ProducerStep, ConsumerStep;
  }

  lemma StepKeepsInv(c: Config, s: State, a: Act)
    requires Valid(c) && Inv(c, s) && Enabled(s, a)
    ensures Inv(c, Next(c, s, a))
  {
    hide SpaceConserved, ItemsConserved, Exclusive, Fifo, SoundHands, Next, Enabled;
    CountsKept(c, s, a);
    ExclusiveKept(c, s, a);
    FifoKept(c, s, a);
    HandsKept(c, s, a);
    ThreadsKept(c, s, a);
  }

  lemma InitInv(c: Config)
    ensures Inv(c, Init(c))
  {
    FreshHolds();
    assert Bodies([]) == [];
  }

  lemma {:induction false} RunKeepsInv(c: Config, s: State, acts: seq<Act>)
    requires Valid(c) && Inv(c, s) && Legal(c, s, acts)
    ensures Inv(c, Run(c, s, acts))
    decreases |acts|
  {
    hide Inv, Next, Enabled;
    if acts != [] {
      StepKeepsInv(c, s, acts[0]);
      RunKeepsInv(c, Next(c, s, acts[0]), acts[1..]);
    }
  }

  lemma ReachableInv(c: Config, s: State)
    requires Valid(c) && Reachable(c, s)
    ensures Inv(c, s)
  {
    hide Inv;
    var acts :| Legal(c, Init(c), acts) && s == Run(c, Init(c), acts);
    InitInv(c);
    RunKeepsInv(c, Init(c), acts);
  }

  // ----------------------------------------------------------------- theorems

  /** Conservation in every reachable state, however threads are created and cancelled; and
      as consequences the queue never underflows and never grows past the guard. */
  lemma TokensConserved(c: Config, s: State)
    requires Valid(c) && Reachable(c, s)
    ensures SpaceConserved(c, s) && ItemsConserved(s)
    ensures s.exit != Underflow && s.ring.amount <= c.guard && s.ring.amount <= c.space
  {
    ReachableInv(c, s);
    SumBounds(s.producers, HoldsSpace, 0, 1);
    SumBounds(s.consumers, OwesSpace, 0, 1);
  }

  /** The consumer that is given the number k receives the very message whose producer was
      given k: the log of gets is a prefix of the log of puts, and k counts from 1, modulo
      2^64. No message fails its checksum on the way. */
  lemma FifoWithTickets(c: Config, s: State, k: nat)
    requires Valid(c) && Reachable(c, s) && k < |s.gets|
    ensures k < |s.puts| && s.gets[k] == s.puts[k]
    ensures s.gets[k].0 == (k + 1) % WORD
    ensures Sound(s.gets[k].1) && s.complaints == 0
  {
    ReachableInv(c, s);
  }

  /** Two threads are never between lock and unlock at the same time. */
  lemma MutualExclusion(c: Config, s: State)
    requires Valid(c) && Reachable(c, s)
    ensures forall i, j | 0 <= i < j < |s.producers| :: !(InsideP(s.producers[i].pc) && InsideP(s.producers[j].pc))
    ensures forall i, j | 0 <= i < j < |s.consumers| :: !(InsideC(s.consumers[i].pc) && InsideC(s.consumers[j].pc))
    ensures forall i, j | 0 <= i < |s.producers| && 0 <= j < |s.consumers| ::
      !(InsideP(s.producers[i].pc) && InsideC(s.consumers[j].pc))
  {
    ReachableInv(c, s);
    hide Fifo, SoundHands, SpaceConserved, ItemsConserved;
  }

  /** The act is a step of a thread, not a command to main. */
  predicate ByThread(a: Act) { a.Produce? || a.Consume? }

  lemma OwnerMoves(c: Config, s: State)
    requires Inv(c, s) && s.exit == Running && s.mutex.Some?
    ensures exists a :: Enabled(s, a) && ByThread(a)
  {
    hide Fifo, SoundHands, SpaceConserved, ItemsConserved;
    match s.mutex.value
    case ByProducer(i) => assert Enabled(s, Produce(i, 0, []));
    case ByConsumer(i) => assert Enabled(s, Consume(i));
  }

  /** With at least one producer and one consumer alive and no exit taken, some thread can
      always take a step. */
  lemma DeadlockFree(c: Config, s: State)
    requires Valid(c) && Reachable(c, s) && c.space > 0 && s.exit == Running
    requires s.producers != [] && s.consumers != []
    ensures exists a :: Enabled(s, a) && ByThread(a)
  {
    ReachableInv(c, s);
    if s.mutex.Some? {
      OwnerMoves(c, s);
    } else if exists i :: 0 <= i < |s.producers| && (s.producers[i].pc != WaitSpace || s.space > 0) {
      var i :| 0 <= i < |s.producers| && (s.producers[i].pc != WaitSpace || s.space > 0);
      assert Enabled(s, Produce(i, 0, []));
    } else if exists i :: 0 <= i < |s.consumers| && (s.consumers[i].pc != WaitItems || s.items > 0) {
      var i :| 0 <= i < |s.consumers| && (s.consumers[i].pc != WaitItems || s.items > 0);
      assert Enabled(s, Consume(i));
    } else {
      AllBlocked(c, s);
    }
  }

  /** If every producer and every consumer were blocked at its semaphore, the queue would
      have to be empty and hold c.space messages at once. */
  lemma AllBlocked(c: Config, s: State)
    requires Inv(c, s) && s.producers != [] && s.consumers != []
    requires forall i | 0 <= i < |s.producers| :: s.producers[i].pc == WaitSpace && s.space == 0
    requires forall i | 0 <= i < |s.consumers| :: s.consumers[i].pc == WaitItems && s.items == 0
    ensures c.space == 0
  {
    SumBounds(s.producers, HoldsSpace, 0, 0);
    SumBounds(s.producers, OwesItem, 0, 0);
    SumBounds(s.consumers, HoldsItem, 0, 0);
    SumBounds(s.consumers, OwesSpace, 0, 0);
    assert s.producers[0].pc == WaitSpace && s.consumers[0].pc == WaitItems;
  }

  // -------------------------------------------------------- the overflow exit

  /** With no more places than the guard allows, put_msg never meets a full queue. */
  lemma NoOverflow(c: Config, s: State, i: nat)
    requires Valid(c) && c.space <= c.guard && Inv(c, s) && i < |s.producers| && s.producers[i].pc == Putting
    ensures s.ring.amount < c.guard
  {
    SumAtLeast(s.producers, i, HoldsSpace);
    SumBounds(s.consumers, OwesSpace, 0, 1);
  }

  lemma {:induction false} NoOverflowRun(c: Config, s: State, acts: seq<Act>)
    requires Valid(c) && c.space <= c.guard && Inv(c, s) && Legal(c, s, acts) && s.exit != Overflow
    ensures Run(c, s, acts).exit != Overflow
    decreases |acts|
  {
    if acts != [] {
      StepKeepsInv(c, s, acts[0]);
      if acts[0].Produce? && s.producers[acts[0].i].pc == Putting {
        NoOverflow(c, s, acts[0].i);
      }
      NoOverflowRun(c, Next(c, s, acts[0]), acts[1..]);
    }
  }

  /** The state after one producer, alone, has filled the queue with k messages. */
  ghost predicate Filled(c: Config, s: State, k: nat) {
    && Inv(c, s) && s.exit == Running && s.main == Reading && s.mutex.None?
    && |s.producers| == 1 && s.producers[0].pc == Making && s.consumers == []
    && s.ring.amount == k && s.space == c.space - k
  }

  function P(): Act { Produce(0, 0, []) }

  lemma RunStep(c: Config, s: State, a: Act, rest: seq<Act>)
    requires Enabled(s, a) && Legal(c, Next(c, s, a), rest)
    ensures Legal(c, s, [a] + rest) && Run(c, s, [a] + rest) == Run(c, Next(c, s, a), rest)
  {
    hide Enabled, Next;
    assert ([a] + rest)[1..] == rest;
  }

  lemma {:induction false} RunConcat(c: Config, s: State, a: seq<Act>, b: seq<Act>)
    requires Legal(c, s, a) && Legal(c, Run(c, s, a), b)
    ensures Legal(c, s, a + b) && Run(c, s, a + b) == Run(c, Run(c, s, a), b)
    decreases |a|
  {
    hide Enabled, Next;
    if a == [] {
      assert a + b == b;
    } else {
      RunConcat(c, Next(c, s, a[0]), a[1..], b);
      assert a + b == [a[0]] + (a[1..] + b);
      RunStep(c, s, a[0], a[1..] + b);
    }
  }

  /** Four steps of the lone producer. */
  lemma FourSteps(c: Config, s: State, s1: State, s2: State, s3: State)
    requires Enabled(s, P()) && s1 == Next(c, s, P()) && Enabled(s1, P()) && s2 == Next(c, s1, P())
    requires Enabled(s2, P()) && s3 == Next(c, s2, P()) && Enabled(s3, P())
    ensures Legal(c, s, [P(), P(), P(), P()]) && Run(c, s, [P(), P(), P(), P()]) == Next(c, s3, P())
  {
    hide Enabled, Next;
    RunStep(c, s3, P(), []);
    RunStep(c, s2, P(), [P()]);
    RunStep(c, s1, P(), [P(), P()]);
    RunStep(c, s, P(), [P(), P(), P()]);
  }

  /** From the loop's head to put_msg: a message is put, or the overflow exit is taken. */
  lemma ToPut(c: Config, s: State, k: nat) returns (t: State)
    requires Valid(c) && c.guard < c.space && k <= c.guard && Filled(c, s, k)
    ensures Legal(c, s, [P(), P(), P(), P()]) && t == Run(c, s, [P(), P(), P(), P()]) && Inv(c, t)
    ensures k == c.guard ==> t.exit == Overflow
    ensures k < c.guard ==> JustPut(c, t, k + 1)
  {
    assert Shaped(s.ring);
    hide Fifo, Exclusive, SpaceConserved, ItemsConserved, SoundHands, Produced;
    var s1 := Moved(c, s);
    var s2 := Moved(c, s1);
    var s3 := Moved(c, s2);
    t := Moved(c, s3);
    hide Inv;
    FourSteps(c, s, s1, s2, s3);
  }

  /** The lone producer has put the k-th message and still holds the mutex. */
  ghost predicate JustPut(c: Config, s: State, k: nat) {
    && s.exit == Running && s.main == Reading && s.mutex.Some?
    && |s.producers| == 1 && s.producers[0].pc == UnlockP && s.consumers == []
    && s.ring.amount == k && s.space == c.space - k
  }

  lemma FromPut(c: Config, s: State, k: nat) returns (t: State)
    requires Valid(c) && Inv(c, s) && JustPut(c, s, k)
    ensures Legal(c, s, [P(), P(), P(), P()]) && t == Run(c, s, [P(), P(), P(), P()]) && Filled(c, t, k)
  {
    hide Fifo, Exclusive, SpaceConserved, ItemsConserved, SoundHands, Produced;
    var s1 := Moved(c, s);
    var s2 := Moved(c, s1);
    var s3 := Moved(c, s2);
    t := Moved(c, s3);
    hide Inv;
    FourSteps(c, s, s1, s2, s3);
  }

  /** A schedule that ends in the overflow exit, from a queue filled by a lone producer. */
  lemma {:induction false} FillToOverflow(c: Config, s: State, k: nat) returns (acts: seq<Act>)
    requires Valid(c) && c.guard < c.space && k <= c.guard && Filled(c, s, k)
    ensures Legal(c, s, acts) && Run(c, s, acts).exit == Overflow
    decreases c.guard - k
  {
    hide Filled, JustPut, Inv, Enabled, Next;
    var four := [P(), P(), P(), P()];
    var t := ToPut(c, s, k);
    acts := four;
    if k < c.guard {
      var u := FromPut(c, t, k + 1);
      var rest := FillToOverflow(c, u, k + 1);
      RunConcat(c, t, four, rest);
      RunConcat(c, s, four, four + rest);
      acts := four + (four + rest);
    }
  }

  lemma Moved(c: Config, s: State) returns (t: State)
    requires Valid(c) && Inv(c, s) && Enabled(s, P())
    ensures t == Next(c, s, P()) && Inv(c, t)
  {
    t := Next(c, s, P());
    StepKeepsInv(c, s, P());
  }

  /** The capacity threshold: the overflow exit can be reached exactly when free_space
      starts above the amount at which put_msg exits. */
  lemma OverflowReachableIff(c: Config)
    requires Valid(c)
    ensures (exists s :: Reachable(c, s) && s.exit == Overflow) <==> c.space > c.guard
  {
    InitInv(c);
    if c.space > c.guard {
      var a := CreateProducer(EMPTY_SLOT);
      var s := Next(c, Init(c), a);
      StepKeepsInv(c, Init(c), a);
      var acts := FillToOverflow(c, s, 0);
      hide Enabled, Next, Inv;
      RunStep(c, Init(c), a, acts);
      assert Reachable(c, Run(c, Init(c), [a] + acts));
    } else {
      forall s | Reachable(c, s)
        ensures s.exit != Overflow
      {
        var acts :| Legal(c, Init(c), acts) && s == Run(c, Init(c), acts);
        NoOverflowRun(c, Init(c), acts);
      }
    }
  }

  /** The program's own constants are on the wrong side of the threshold by one: the exit can
      be reached, and a queue in use never holds more than MSG_MAX - 1 messages. */
  lemma ProgramOverflows()
    ensures exists s :: Reachable(PROGRAM, s) && s.exit == Overflow
    ensures forall s | Reachable(PROGRAM, s) :: s.ring.amount <= MSG_MAX - 1
  {
    OverflowReachableIff(PROGRAM);
    forall s | Reachable(PROGRAM, s)
      ensures s.ring.amount <= MSG_MAX - 1
    {
      TokensConserved(PROGRAM, s);
    }
  }
}
