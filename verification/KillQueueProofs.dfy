/** The invariant of the killed-process queue is kept by every step and every kill; what
    follows from it. */
module KillQueueProofs {
  import opened Base
  import opened Checksum
  import opened Messages
  import opened RingQueue
  import opened KillQueue

  // ------------------------------------------------------------------- counts

  /** The act is the overflow exit of a producer, which holds the mutex at that point. */
  predicate ExitsInside(s: State, a: Act) {
    a.Produce? && a.i < |s.producers| && s.producers[a.i].pc == TestFull && s.ring.amount == MSG_MAX - 1
  }

  lemma ProduceDelta(s: State, i: nat, value: nat, data: seq<int>)
    requires Enabled(s, Produce(i, value, data)) && !ExitsInside(s, Produce(i, value, data))
    ensures var t := ProducerStep(s, i, value, data);
      && t.producers == s.producers[i := t.producers[i]]
      && t.space + HoldsSpace(t.producers[i]) + t.ring.amount == s.space + HoldsSpace(s.producers[i]) + s.ring.amount
      && t.ring.amount - t.items - OwesItem(t.producers[i]) == s.ring.amount - s.items - OwesItem(s.producers[i])
      && t.mutex + HoldsMutexP(t.producers[i]) == s.mutex + HoldsMutexP(s.producers[i])
  {
    hide Produced, Inc, Wrap;
  }

  lemma ConsumeDelta(s: State, i: nat)
    requires Enabled(s, Consume(i)) && (HoldsItem(s.consumers[i]) == 1 ==> s.ring.amount > 0)
    ensures var t := ConsumerStep(s, i);
      && t.consumers == s.consumers[i := t.consumers[i]]
      && t.space + OwesSpace(t.consumers[i]) + t.ring.amount == s.space + OwesSpace(s.consumers[i]) + s.ring.amount
      && t.ring.amount - t.items - HoldsItem(t.consumers[i]) == s.ring.amount - s.items - HoldsItem(s.consumers[i])
      && t.mutex + HoldsMutexC(t.consumers[i]) == s.mutex + HoldsMutexC(s.consumers[i])
  {
    hide Sound, Inc, Wrap;
  }

  /** The three counts of a state. */
  ghost predicate Counts(s: State) { SpaceBounded(s) && ItemsBounded(s) && Exclusive(s) }

  /** The mutex, counted as free or held by a live process. */
  ghost function Holders(s: State): int {
    s.mutex + Sum(s.producers, HoldsMutexP) + Sum(s.consumers, HoldsMutexC)
  }

  /** The mutex is free or a live process holds it. */
  ghost predicate Usable(s: State) { Holders(s) == 1 }

  /** The exiting producer takes its place in the queue and the mutex with it. */
  lemma ExitCounts(s: State, i: nat, value: nat, data: seq<int>)
    requires Counts(s) && ExitsInside(s, Produce(i, value, data)) && Enabled(s, Produce(i, value, data))
    ensures Counts(ProducerStep(s, i, value, data))
    ensures Holders(ProducerStep(s, i, value, data)) == Holders(s) - 1
  {
    var gone := Producer(GoneP, s.producers[i].msg);
    hide Sum;
    SumUpdate(s.producers, i, gone, HoldsSpace);
    SumUpdate(s.producers, i, gone, OwesItem);
    SumUpdate(s.producers, i, gone, HoldsMutexP);
  }

  lemma ProduceCounts(s: State, i: nat, value: nat, data: seq<int>)
    requires Counts(s) && Enabled(s, Produce(i, value, data))
    ensures Counts(ProducerStep(s, i, value, data))
  {
    var t := ProducerStep(s, i, value, data);
    hide ProducerStep, Enabled, HoldsSpace, OwesItem, HoldsMutexP, Sum, Holders;
    if ExitsInside(s, Produce(i, value, data)) {
      ExitCounts(s, i, value, data);
    } else {
      hide ExitsInside;
      ProduceDelta(s, i, value, data);
      SumUpdate(s.producers, i, t.producers[i], HoldsSpace);
      SumUpdate(s.producers, i, t.producers[i], OwesItem);
      SumUpdate(s.producers, i, t.producers[i], HoldsMutexP);
    }
  }

  lemma ConsumeCounts(s: State, i: nat)
    requires Counts(s) && Enabled(s, Consume(i))
    ensures Counts(ConsumerStep(s, i))
  {
    var t := ConsumerStep(s, i);
    if HoldsItem(s.consumers[i]) == 1 {
      ItemHeld(s, i);
    }
    ConsumeDelta(s, i);
    hide ConsumerStep, Enabled, HoldsItem, OwesSpace, HoldsMutexC, Sum;
    SumUpdate(s.consumers, i, t.consumers[i], HoldsItem);
    SumUpdate(s.consumers, i, t.consumers[i], OwesSpace);
    SumUpdate(s.consumers, i, t.consumers[i], HoldsMutexC);
  }

  /** A consumer that holds an item finds a message. */
  lemma ItemHeld(s: State, i: nat)
    requires ItemsBounded(s) && i < |s.consumers| && HoldsItem(s.consumers[i]) == 1
    ensures s.ring.amount > 0
  {
    SumAtLeast(s.consumers, i, HoldsItem);
    SumBounds(s.producers, OwesItem, 0, 1);
  }

  /** A producer that holds a place finds one. */
  lemma SpaceHeld(s: State, i: nat)
    requires SpaceBounded(s) && i < |s.producers| && HoldsSpace(s.producers[i]) == 1
    ensures s.ring.amount < MSG_MAX
  {
    SumAtLeast(s.producers, i, HoldsSpace);
    SumBounds(s.consumers, OwesSpace, 0, 1);
  }

  lemma ForkCounts(s: State, m: Msg)
    requires Counts(s)
    ensures Counts(s.(producers := s.producers + [Producer(Making, m)]))
    ensures Counts(s.(consumers := s.consumers + [Consumer(WaitItems, m)]))
  {
    hide Sum;
    SumAppend(s.producers, Producer(Making, m), HoldsSpace);
    SumAppend(s.producers, Producer(Making, m), OwesItem);
    SumAppend(s.producers, Producer(Making, m), HoldsMutexP);
    SumAppend(s.consumers, Consumer(WaitItems, m), HoldsItem);
    SumAppend(s.consumers, Consumer(WaitItems, m), OwesSpace);
    SumAppend(s.consumers, Consumer(WaitItems, m), HoldsMutexC);
  }

  lemma KillCounts(s: State)
    requires Counts(s)
    ensures s.producers != [] ==> Counts(s.(producers := s.producers[..|s.producers| - 1]))
    ensures s.consumers != [] ==> Counts(s.(consumers := s.consumers[..|s.consumers| - 1]))
  {
    hide Sum;
    if s.producers != [] {
      SumDropLast(s.producers, HoldsSpace);
      SumDropLast(s.producers, OwesItem);
      SumDropLast(s.producers, HoldsMutexP);
    }
    if s.consumers != [] {
      SumDropLast(s.consumers, HoldsItem);
      SumDropLast(s.consumers, OwesSpace);
      SumDropLast(s.consumers, HoldsMutexC);
    }
  }

  // ---------------------------------------------------------- mutual exclusion

  /** No two live processes are inside, and none is while the mutex is free. */
  ghost predicate OneInside(s: State) {
    && (forall i, j | 0 <= i < j < |s.producers| :: !(InsideP(s.producers[i].pc) && InsideP(s.producers[j].pc)))
    && (forall i, j | 0 <= i < j < |s.consumers| :: !(InsideC(s.consumers[i].pc) && InsideC(s.consumers[j].pc)))
    && (forall i, j | 0 <= i < |s.producers| && 0 <= j < |s.consumers| ::
         !(InsideP(s.producers[i].pc) && InsideC(s.consumers[j].pc)))
    && (s.mutex > 0 ==> forall i | 0 <= i < |s.producers| :: !InsideP(s.producers[i].pc))
    && (s.mutex > 0 ==> forall i | 0 <= i < |s.consumers| :: !InsideC(s.consumers[i].pc))
  }

  lemma ExclusiveMeansOne(s: State)
    requires Exclusive(s)
    ensures OneInside(s)
  {
    SumBounds(s.producers, HoldsMutexP, 0, 1);
    SumBounds(s.consumers, HoldsMutexC, 0, 1);
    hide Sum, InsideP, InsideC;
    forall i, j | 0 <= i < j < |s.producers|
      ensures !(InsideP(s.producers[i].pc) && InsideP(s.producers[j].pc))
    {
      SumAtLeastTwo(s.producers, i, j, HoldsMutexP);
    }
    forall i, j | 0 <= i < j < |s.consumers|
      ensures !(InsideC(s.consumers[i].pc) && InsideC(s.consumers[j].pc))
    {
      SumAtLeastTwo(s.consumers, i, j, HoldsMutexC);
    }
    forall i | 0 <= i < |s.producers| && InsideP(s.producers[i].pc)
      ensures s.mutex == 0 && forall j | 0 <= j < |s.consumers| :: !InsideC(s.consumers[j].pc)
    {
      SumAtLeast(s.producers, i, HoldsMutexP);
      forall j | 0 <= j < |s.consumers|
        ensures !InsideC(s.consumers[j].pc)
      {
        SumAtLeast(s.consumers, j, HoldsMutexC);
      }
    }
    forall j | 0 <= j < |s.consumers| && InsideC(s.consumers[j].pc)
      ensures s.mutex == 0
    {
      SumAtLeast(s.consumers, j, HoldsMutexC);
    }
  }

  // ------------------------------------------------------------------ the ring

  /** Storing into the slot behind the last message harms none of the others. */
  lemma StoreHarmless(puts: seq<(nat, Msg)>, got: nat, r: Ring, m: Msg)
    requires Whole(puts, got, r) && r.head < MSG_MAX && r.amount < MSG_MAX
    ensures Whole(puts, got, r.(buffer := r.buffer[r.head := m]))
  {
    var t := r.(buffer := r.buffer[r.head := m]);
    forall k | got <= k < |puts|
      ensures t.buffer[Slot(k)] == Bodies(puts)[k]
    {
      SlotsDistinct(k, |puts|);
      SlotNext(k);
    }
  }

  /** Each assignment of put_msg leads from one half-done ring to the next. */
  lemma PutAssignKeeps(puts: seq<(nat, Msg)>, got: nat, r: Ring, p: Producer)
    requires InsideP(p.pc) && HalfPut(puts, got, r, p) && p.pc != IncAdded
    requires p.pc == TestFull ==> r.amount < MSG_MAX - 1
    ensures HalfPut(puts, got, PutAssign(r, p), p.(pc := AfterP(p.pc)))
  {
    if p.pc == StoreSlot {
      StoreHarmless(puts, got, r, p.msg);
    } else if p.pc == IncHead {
      assert r.(head := r.head + 1).(head := r.head + 1 - 1) == r;
    } else if p.pc == IncAmount {
      assert r.(amount := r.amount + 1).(head := r.head - 1, amount := r.amount) == r.(head := r.head - 1);
    }
    hide Slot;
  }

  /** The last assignment completes the put. */
  lemma PutCompletes(puts: seq<(nat, Msg)>, got: nat, r: Ring, p: Producer)
    requires p.pc == IncAdded && HalfPut(puts, got, r, p)
    ensures Inc(r.added) == (|puts| + 1) % WORD
    ensures Whole(puts + [(Inc(r.added), p.msg)], got, r.(added := Inc(r.added)))
  {
    var base := r.(head := r.head - 1, amount := r.amount - 1);
    PutHolds(base, Bodies(puts), got, p.msg);
    hide Slot, Holds;
    assert base.buffer[base.head := p.msg] == base.buffer;
    assert Put(base, p.msg) == r.(added := Inc(r.added));
    assert Bodies(puts + [(Inc(r.added), p.msg)]) == Bodies(puts) + [p.msg];
  }

  lemma GetAssignKeeps(puts: seq<(nat, Msg)>, got: nat, r: Ring, p: Consumer)
    requires InsideC(p.pc) && HalfGet(puts, got, r, p) && p.pc != IncExtracted
    requires p.pc == TestEmpty ==> r.amount > 0
    ensures p.pc != LoadSlot ==> HalfGet(puts, got, GetAssign(r, p), p.(pc := AfterC(p.pc)))
    ensures p.pc == LoadSlot ==> r.tail < |r.buffer| && HalfGet(puts, got, r, Consumer(IncTail, r.buffer[r.tail]))
  {
    if p.pc == IncTail {
      assert r.(tail := r.tail + 1).(tail := r.tail + 1 - 1) == r;
    } else if p.pc == DecAmount {
      assert r.(amount := r.amount - 1).(tail := r.tail - 1, amount := r.amount) == r.(tail := r.tail - 1);
    }
    hide Slot;
  }

  lemma GetCompletes(puts: seq<(nat, Msg)>, got: nat, r: Ring, p: Consumer)
    requires p.pc == IncExtracted && HalfGet(puts, got, r, p)
    ensures got < |puts| && puts[got].1 == p.msg && Inc(r.extracted) == (got + 1) % WORD
    ensures Whole(puts, got + 1, r.(extracted := Inc(r.extracted)))
  {
    var base := r.(tail := r.tail - 1, amount := r.amount + 1);
    GetHolds(base, Bodies(puts), got);
    hide Slot, Holds;
    assert Get(base) == r.(extracted := Inc(r.extracted));
  }

  // ------------------------------------------------------------- producer steps

  lemma OthersOutside(s: State, i: nat)
    requires OneInside(s) && i < |s.producers| && InsideP(s.producers[i].pc)
    ensures s.mutex == 0
    ensures forall j | 0 <= j < |s.producers| && j != i :: !InsideP(s.producers[j].pc)
    ensures forall j | 0 <= j < |s.consumers| :: !InsideC(s.consumers[j].pc)
  {
  }

  lemma OthersOutsideC(s: State, i: nat)
    requires OneInside(s) && i < |s.consumers| && InsideC(s.consumers[i].pc)
    ensures s.mutex == 0
    ensures forall j | 0 <= j < |s.producers| :: !InsideP(s.producers[j].pc)
    ensures forall j | 0 <= j < |s.consumers| && j != i :: !InsideC(s.consumers[j].pc)
  {
  }

  lemma ProduceRing(s: State, i: nat, value: nat, data: seq<int>)
    requires SpaceBounded(s) && OneInside(s) && RingOk(s) && LogsOk(s) && Enabled(s, Produce(i, value, data))
    requires OneInside(ProducerStep(s, i, value, data)) && |s.gets| <= |s.puts|
    ensures RingOk(ProducerStep(s, i, value, data))
  {
    var p, t := s.producers[i], ProducerStep(s, i, value, data);
    if InsideP(p.pc) {
      OthersOutside(s, i);
      assert HalfPut(s.puts, |s.gets|, s.ring, p);
      if p.pc == TestFull {
        SpaceHeld(s, i);
      }
      if p.pc == IncAdded {
        PutCompletes(s.puts, |s.gets|, s.ring, p);
      } else if !ExitsInside(s, Produce(i, value, data)) {
        PutAssignKeeps(s.puts, |s.gets|, s.ring, p);
      }
    }
    hide Whole, Sum, OneInside, Produced;
  }

  lemma ConsumeRing(s: State, i: nat)
    requires ItemsBounded(s) && OneInside(s) && RingOk(s) && LogsOk(s) && Enabled(s, Consume(i))
    requires OneInside(ConsumerStep(s, i))
    ensures RingOk(ConsumerStep(s, i))
  {
    var p, t := s.consumers[i], ConsumerStep(s, i);
    if InsideC(p.pc) {
      OthersOutsideC(s, i);
      assert HalfGet(s.puts, |s.gets|, s.ring, p);
      if p.pc == TestEmpty {
        ItemHeld(s, i);
      }
      if p.pc == IncExtracted {
        GetCompletes(s.puts, |s.gets|, s.ring, p);
      } else {
        GetAssignKeeps(s.puts, |s.gets|, s.ring, p);
      }
    }
    hide Whole, Sum, OneInside, Sound;
  }

  // --------------------------------------------------------------------- logs

  lemma ProduceLogs(s: State, i: nat, value: nat, data: seq<int>)
    requires RingOk(s) && LogsOk(s) && SoundHands(s) && Enabled(s, Produce(i, value, data))
    ensures var t := ProducerStep(s, i, value, data);
      LogsOk(t) && SoundHands(t) && (s.exit != Underflow ==> t.exit != Underflow)
  {
    var p := s.producers[i];
    if p.pc == IncAdded {
      assert HalfPut(s.puts, |s.gets|, s.ring, p);
      PutCompletes(s.puts, |s.gets|, s.ring, p);
    }
    hide HalfPut, HalfGet, Whole, HashOf;
  }

  lemma ConsumeLogs(s: State, i: nat)
    requires ItemsBounded(s) && RingOk(s) && LogsOk(s) && Enabled(s, Consume(i))
    ensures var t := ConsumerStep(s, i); LogsOk(t) && (s.exit != Underflow ==> t.exit != Underflow)
  {
    var p := s.consumers[i];
    if p.pc == IncExtracted {
      assert HalfGet(s.puts, |s.gets|, s.ring, p);
      GetCompletes(s.puts, |s.gets|, s.ring, p);
    }
    if p.pc == TestEmpty {
      ItemHeld(s, i);
    }
    hide HalfPut, HalfGet, Whole, HashOf, Sum, RingOk, ItemsBounded;
  }

  lemma ConsumeHands(s: State, i: nat)
    requires RingOk(s) && LogsOk(s) && SoundHands(s) && Enabled(s, Consume(i))
    ensures SoundHands(ConsumerStep(s, i))
  {
    var p := s.consumers[i];
    if p.pc == IncExtracted {
      assert HalfGet(s.puts, |s.gets|, s.ring, p);
      GetCompletes(s.puts, |s.gets|, s.ring, p);
    }
    hide HalfPut, HalfGet, Whole, HashOf, RingOk;
  }

  // ----------------------------------------------------------------- the whole

  lemma ProduceKeeps(s: State, i: nat, value: nat, data: seq<int>)
    requires Inv(s) && Enabled(s, Produce(i, value, data))
    ensures Inv(ProducerStep(s, i, value, data))
  {
    hide RingOk, SoundHands, SpaceBounded, ItemsBounded, Exclusive, OneInside, ProducerStep, Enabled;
    ProduceCounts(s, i, value, data);
    ExclusiveMeansOne(s);
    ExclusiveMeansOne(ProducerStep(s, i, value, data));
    ProduceRing(s, i, value, data);
    ProduceLogs(s, i, value, data);
  }

  lemma ConsumeKeeps(s: State, i: nat)
    requires Inv(s) && Enabled(s, Consume(i))
    ensures Inv(ConsumerStep(s, i))
  {
    hide RingOk, SoundHands, SpaceBounded, ItemsBounded, Exclusive, OneInside, ConsumerStep, Enabled;
    ConsumeCounts(s, i);
    ExclusiveMeansOne(s);
    ExclusiveMeansOne(ConsumerStep(s, i));
    ConsumeRing(s, i);
    ConsumeLogs(s, i);
    ConsumeHands(s, i);
  }

  lemma StepKeepsInv(s: State, a: Act)
    requires Inv(s) && Enabled(s, a)
    ensures Inv(Next(s, a))
  {
    match a
    case Produce(i, value, data) => ProduceKeeps(s, i, value, data);
    case Consume(i) => ConsumeKeeps(s, i);
    case ForkProducer(m) => ForkKeeps(s, m);
    case ForkConsumer(m) => ForkKeeps(s, m);
    case KillProducer => KillKeeps(s);
    case KillConsumer => KillKeeps(s);
  }

  lemma ForkKeeps(s: State, m: Msg)
    requires Inv(s)
    ensures Inv(s.(producers := s.producers + [Producer(Making, m)]))
    ensures Inv(s.(consumers := s.consumers + [Consumer(WaitItems, m)]))
  {
    ForkCounts(s, m);
    hide SpaceBounded, ItemsBounded, Exclusive, HalfPut, HalfGet, Whole, HashOf;
  }

  /** A kill, wherever it strikes, keeps the invariant. */
  lemma KillKeeps(s: State)
    requires Inv(s)
    ensures s.producers != [] ==> Inv(s.(producers := s.producers[..|s.producers| - 1]))
    ensures s.consumers != [] ==> Inv(s.(consumers := s.consumers[..|s.consumers| - 1]))
  {
    KillCounts(s);
    hide SpaceBounded, ItemsBounded, Exclusive, HalfPut, HalfGet, Whole, HashOf;
  }

  lemma InitInv()
    ensures Inv(Init())
  {
    FreshHolds();
    assert Bodies([]) == [];
  }

  lemma {:induction false} RunKeepsInv(s: State, acts: seq<Act>)
    requires Inv(s) && Legal(s, acts)
    ensures Inv(Run(s, acts))
    decreases |acts|
  {
    hide Inv, Next, Enabled;
    if acts != [] {
      StepKeepsInv(s, acts[0]);
      RunKeepsInv(Next(s, acts[0]), acts[1..]);
    }
  }

  lemma ReachableInv(s: State)
    requires Reachable(s)
    ensures Inv(s)
  {
    hide Inv;
    var acts :| Legal(Init(), acts) && s == Run(Init(), acts);
    InitInv();
    RunKeepsInv(Init(), acts);
  }

  // ----------------------------------------------------------------- theorems

  /** Wherever children are killed: while the mutex is free the ring is whole; a live process
      that enters put_msg or get_msg finds it whole; and get_msg never finds it empty. */
  lemma KillSafety(s: State)
    requires Reachable(s)
    ensures s.mutex > 0 ==> Whole(s.puts, |s.gets|, s.ring)
    ensures forall i | 0 <= i < |s.producers| && s.producers[i].pc == TestFull :: Whole(s.puts, |s.gets|, s.ring)
    ensures forall i | 0 <= i < |s.consumers| && s.consumers[i].pc == TestEmpty ::
      Whole(s.puts, |s.gets|, s.ring) && s.ring.amount > 0
    ensures s.exit != Underflow
  {
    ReachableInv(s);
    hide Whole, Holds;
    forall i | 0 <= i < |s.consumers| && s.consumers[i].pc == TestEmpty
      ensures Whole(s.puts, |s.gets|, s.ring) && s.ring.amount > 0
    {
      ItemHeld(s, i);
    }
  }

  /** Killed children only lose places and items, so what is left stays in bounds. */
  lemma TokensBounded(s: State)
    requires Reachable(s)
    ensures SpaceBounded(s) && ItemsBounded(s)
    ensures s.space + s.ring.amount <= MSG_MAX && s.items <= s.ring.amount
  {
    ReachableInv(s);
    SumBounds(s.producers, HoldsSpace, 0, 1);
    SumBounds(s.consumers, OwesSpace, 0, 1);
    SumBounds(s.producers, OwesItem, 0, 1);
    SumBounds(s.consumers, HoldsItem, 0, 1);
  }

  /** Completed gets follow completed puts number for number, killed or not, and no message
      fails its checksum. */
  lemma FifoUnderKill(s: State, k: nat)
    requires Reachable(s) && k < |s.gets|
    ensures k < |s.puts| && s.gets[k] == s.puts[k] && s.gets[k].0 == (k + 1) % WORD
    ensures Sound(s.gets[k].1) && s.complaints == 0
  {
    ReachableInv(s);
  }

  lemma ProduceHolders(s: State, i: nat, value: nat, data: seq<int>)
    requires Enabled(s, Produce(i, value, data)) && !ExitsInside(s, Produce(i, value, data))
    ensures Holders(ProducerStep(s, i, value, data)) == Holders(s)
  {
    var t := ProducerStep(s, i, value, data);
    ProduceDelta(s, i, value, data);
    hide ProducerStep, Enabled, HoldsMutexP, HoldsSpace, OwesItem, Sum;
    SumUpdate(s.producers, i, t.producers[i], HoldsMutexP);
  }

  lemma ConsumeHolders(s: State, i: nat)
    requires ItemsBounded(s) && Enabled(s, Consume(i))
    ensures Holders(ConsumerStep(s, i)) == Holders(s)
  {
    var t := ConsumerStep(s, i);
    if HoldsItem(s.consumers[i]) == 1 {
      ItemHeld(s, i);
    }
    ConsumeDelta(s, i);
    hide ConsumerStep, Enabled, HoldsMutexC, HoldsItem, OwesSpace, Sum, ItemsBounded;
    SumUpdate(s.consumers, i, t.consumers[i], HoldsMutexC);
  }

  /** The kill strikes a process inside. */
  predicate KillsHolder(s: State, a: Act) {
    (a.KillProducer? && s.producers != [] && InsideP(s.producers[|s.producers| - 1].pc)) ||
    (a.KillConsumer? && s.consumers != [] && InsideC(s.consumers[|s.consumers| - 1].pc))
  }

  /** A fork changes no count; a kill takes what the killed child counts for. */
  lemma MainHolders(s: State, a: Act)
    requires Enabled(s, a) && !a.Produce? && !a.Consume?
    ensures Holders(Next(s, a)) == Holders(s) - (if KillsHolder(s, a) then 1 else 0)
  {
    hide Sum;
    match a
    case ForkProducer(m) => SumAppend(s.producers, Producer(Making, m), HoldsMutexP);
    case ForkConsumer(m) => SumAppend(s.consumers, Consumer(WaitItems, m), HoldsMutexC);
    case KillProducer => SumDropLast(s.producers, HoldsMutexP);
    case KillConsumer => SumDropLast(s.consumers, HoldsMutexC);
  }

  /** The queue stays usable through every step, kill and exit but two: a kill of the process
      that holds the mutex, and the overflow exit, taken with the mutex held. Each of these
      always makes it unusable. */
  lemma UnusableOnlyByLoss(s: State, a: Act)
    requires Reachable(s) && Usable(s) && Enabled(s, a)
    ensures Usable(Next(s, a)) <==> !KillsHolder(s, a) && !ExitsInside(s, a)
  {
    ReachableInv(s);
    hide RingOk, LogsOk, SoundHands, SpaceBounded, ItemsBounded, Exclusive,
         Reachable, Holders, ProducerStep, ConsumerStep;
    match a
    case Produce(i, value, data) =>
      if ExitsInside(s, a) {
        ExitCounts(s, i, value, data);
      } else {
        ProduceHolders(s, i, value, data);
      }
    case Consume(i) => ConsumeHolders(s, i);
    case _ => MainHolders(s, a);
  }

  /** Nobody holds the mutex and nobody can take it. */
  ghost predicate Blocked(s: State) {
    && s.mutex == 0
    && (forall i | 0 <= i < |s.producers| :: !InsideP(s.producers[i].pc))
    && (forall i | 0 <= i < |s.consumers| :: !InsideC(s.consumers[i].pc))
  }

  lemma UnusableMeansBlocked(s: State)
    requires Inv(s)
    ensures !Usable(s) <==> Blocked(s)
  {
    ExclusiveMeansOne(s);
    SumBounds(s.producers, HoldsMutexP, 0, 1);
    SumBounds(s.consumers, HoldsMutexC, 0, 1);
    hide RingOk, LogsOk, SoundHands, Sum, InsideP, InsideC;
    if Blocked(s) {
      SumBounds(s.producers, HoldsMutexP, 0, 0);
      SumBounds(s.consumers, HoldsMutexC, 0, 0);
    } else if exists i :: 0 <= i < |s.producers| && InsideP(s.producers[i].pc) {
      var i :| 0 <= i < |s.producers| && InsideP(s.producers[i].pc);
      SumAtLeast(s.producers, i, HoldsMutexP);
    } else if exists i :: 0 <= i < |s.consumers| && InsideC(s.consumers[i].pc) {
      var i :| 0 <= i < |s.consumers| && InsideC(s.consumers[i].pc);
      SumAtLeast(s.consumers, i, HoldsMutexC);
    }
  }

  lemma BlockedStep(s: State, a: Act)
    requires Blocked(s) && Enabled(s, a)
    ensures var t := Next(s, a); Blocked(t) && t.ring == s.ring && t.puts == s.puts && t.gets == s.gets
  {
  }

  /** Once the mutex is lost the ring is frozen as it is, half-done or not: through any further
      run nobody enters, and the ring and both logs stay as they are. */
  lemma {:induction false} BlockedForever(s: State, acts: seq<Act>)
    requires Blocked(s) && Legal(s, acts)
    ensures var t := Run(s, acts); Blocked(t) && t.ring == s.ring && t.puts == s.puts && t.gets == s.gets
    decreases |acts|
  {
    hide Blocked, Enabled, Next;
    if acts != [] {
      BlockedStep(s, acts[0]);
      BlockedForever(Next(s, acts[0]), acts[1..]);
    }
  }

  /** So after either loss the other children may go on for a while, but never again put or get
      a message. */
  lemma LossIsForever(s: State, a: Act, acts: seq<Act>)
    requires Reachable(s) && Usable(s) && Enabled(s, a) && (KillsHolder(s, a) || ExitsInside(s, a))
    requires Legal(Next(s, a), acts)
    ensures var t, u := Next(s, a), Run(Next(s, a), acts);
      Blocked(u) && u.ring == t.ring && u.puts == s.puts && u.gets == s.gets
  {
    UnusableOnlyByLoss(s, a);
    ReachableInv(s);
    StepKeepsInv(s, a);
    UnusableMeansBlocked(Next(s, a));
    BlockedForever(Next(s, a), acts);
    hide Inv, Reachable, Usable, Blocked, Legal;
  }

  // ------------------------------------------------------ both losses do occur

  lemma RunStep(s: State, a: Act, rest: seq<Act>)
    requires Enabled(s, a) && Legal(Next(s, a), rest)
    ensures Legal(s, [a] + rest) && Run(s, [a] + rest) == Run(Next(s, a), rest)
  {
    hide Enabled, Next;
    assert ([a] + rest)[1..] == rest;
  }

  /** The state of a lone producer that has not lost a place. */
  ghost predicate Lone(s: State) {
    && s.exit == Running && |s.producers| == 1 && s.consumers == [] && s.producers[0].pc != GoneP
    && s.mutex == (if InsideP(s.producers[0].pc) then 0 else 1)
    && s.ring.amount <= MSG_MAX - 1 && s.space + s.ring.amount + HoldsSpace(s.producers[0]) == MSG_MAX
    && (InsideP(s.producers[0].pc) && HoldsSpace(s.producers[0]) == 1 && s.producers[0].pc != TestFull ==>
         s.ring.amount < MSG_MAX - 1)
  }

  /** Steps of the lone producer before the amount grows again. */
  function Rank(pc: ProdPc): nat {
    match pc
    case IncAdded => 11
    case PostMutexP => 10
    case PostItems => 9
    case ReportP => 8
    case Making => 7
    case WaitSpace => 6
    case WaitMutexP => 5
    case TestFull => 4
    case WrapHead => 3
    case StoreSlot => 2
    case IncHead => 1
    case IncAmount => 0
    case GoneP => 0
  }

  lemma LoneStep(s: State)
    requires Lone(s)
    ensures var a := Produce(0, 0, []);
      Enabled(s, a) && (ExitsInside(s, a) ||
      (Lone(Next(s, a)) && 12 * (MSG_MAX - Next(s, a).ring.amount) + Rank(Next(s, a).producers[0].pc)
                           < 12 * (MSG_MAX - s.ring.amount) + Rank(s.producers[0].pc)))
  {
    hide Produced;
  }

  lemma {:induction false} LoneToExit(s: State) returns (acts: seq<Act>)
    requires Lone(s)
    ensures Legal(s, acts) && Lone(Run(s, acts)) && ExitsInside(Run(s, acts), Produce(0, 0, []))
    decreases 12 * (MSG_MAX - s.ring.amount) + Rank(s.producers[0].pc)
  {
    var a := Produce(0, 0, []);
    LoneStep(s);
    acts := [];
    if !ExitsInside(s, a) {
      acts := LoneToExit(Next(s, a));
      hide Lone, ExitsInside, Enabled, Next;
      RunStep(s, a, acts);
      acts := [a] + acts;
    }
  }

  predicate BothLossesNext(s: State) {
    && Enabled(s, Produce(0, 0, [])) && ExitsInside(s, Produce(0, 0, []))
    && Enabled(s, KillProducer) && KillsHolder(s, KillProducer)
  }

  /** A producer that nobody empties the queue for fills it and comes to its overflow exit
      inside the mutex; and there it can as well be killed. */
  lemma LossesReachable()
    ensures exists s :: Reachable(s) && Usable(s) && BothLossesNext(s)
  {
    var fork := ForkProducer(EMPTY_SLOT);
    var s0 := Next(Init(), fork);
    assert Lone(s0);
    var acts := LoneToExit(s0);
    var s := Run(s0, acts);
    LoneIsUsable(s);
    assert Enabled(s, KillProducer) && KillsHolder(s, KillProducer);
    assert BothLossesNext(s);
    hide Lone, Usable, Next, BothLossesNext;
    RunStep(Init(), fork, acts);
    assert Reachable(s);
  }

  lemma LoneIsUsable(s: State)
    requires Lone(s)
    ensures Usable(s) && Enabled(s, Produce(0, 0, []))
  {
    assert s.producers[..0] == [];
    assert Sum(s.producers, HoldsMutexP) == Sum(s.producers[..0], HoldsMutexP) + HoldsMutexP(s.producers[0]);
  }
}
