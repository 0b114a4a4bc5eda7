/** When the queue of the killed processes is dead: no continuation puts or gets a message any
    more. The mutex need not be lost for that; places and items are lost with killed children
    as well. */
module KillQueueLife {
  import opened Base
  import opened Messages
  import opened RingQueue
  import opened KillQueue
  import opened KillQueueProofs

  // -------------------------------------------------- a few more facts of every run

  /** Room for the message that is being taken out is still counted. */
  ghost predicate Room(s: State) {
    && s.ring.amount <= MSG_MAX - 1
    && (forall i | 0 <= i < |s.consumers| && s.consumers[i].pc == IncExtracted :: s.ring.amount < MSG_MAX - 1)
  }

  predicate NobodyGone(s: State) {
    && (forall i | 0 <= i < |s.producers| :: s.producers[i].pc != GoneP)
    && (forall i | 0 <= i < |s.consumers| :: s.consumers[i].pc != GoneC)
  }

  ghost predicate Tidy(s: State) {
    && Room(s)
    && (s.exit == Running ==> NobodyGone(s))
    && (s.exit != Running ==> Blocked(s))
  }

  lemma ProduceTidy(s: State, i: nat, value: nat, data: seq<int>)
    requires RingOk(s) && OneInside(s) && Tidy(s) && s.exit == Running && Enabled(s, Produce(i, value, data))
    ensures Tidy(ProducerStep(s, i, value, data))
  {
    if InsideP(s.producers[i].pc) {
      OthersOutside(s, i);
      assert HalfPut(s.puts, |s.gets|, s.ring, s.producers[i]);
    }
    hide Whole, Produced, Inc, Wrap;
  }

  lemma ConsumeTidy(s: State, i: nat)
    requires RingOk(s) && ItemsBounded(s) && OneInside(s) && Tidy(s) && s.exit == Running && Enabled(s, Consume(i))
    ensures Tidy(ConsumerStep(s, i))
  {
    if InsideC(s.consumers[i].pc) {
      OthersOutsideC(s, i);
      assert HalfGet(s.puts, |s.gets|, s.ring, s.consumers[i]);
      if s.consumers[i].pc == TestEmpty {
        ItemHeld(s, i);
      }
    }
    hide Whole, Sound, Inc, Wrap, Sum;
  }

  lemma TidyStep(s: State, a: Act)
    requires Inv(s) && Tidy(s) && Enabled(s, a)
    ensures Tidy(Next(s, a))
  {
    if s.exit != Running {
      BlockedStep(s, a);
      AfterExit(s, a);
    } else {
      ExclusiveMeansOne(s);
      hide SpaceBounded, ItemsBounded, Exclusive, RingOk, OneInside, LogsOk, SoundHands, ProducerStep, ConsumerStep;
      match a
      case Produce(i, value, data) => ProduceTidy(s, i, value, data);
      case Consume(i) => ConsumeTidy(s, i);
      case _ =>
    }
  }

  /** Past the exit the amount stays and nobody comes to take a message. */
  lemma AfterExit(s: State, a: Act)
    requires Blocked(s) && s.exit != Running && Room(s) && Enabled(s, a)
    ensures Next(s, a).exit == s.exit && Room(Next(s, a))
  {
    hide Produced, Sound;
  }

  lemma {:induction false} RunKeepsTidy(s: State, acts: seq<Act>)
    requires Inv(s) && Tidy(s) && Legal(s, acts)
    ensures Tidy(Run(s, acts)) && Inv(Run(s, acts))
    decreases |acts|
  {
    hide Inv, Tidy, Next, Enabled;
    if acts != [] {
      StepKeepsInv(s, acts[0]);
      TidyStep(s, acts[0]);
      RunKeepsTidy(Next(s, acts[0]), acts[1..]);
    }
  }

  lemma ReachableTidy(s: State)
    requires Reachable(s)
    ensures Inv(s) && Tidy(s)
  {
    InitInv();
    assert Tidy(Init());
    hide Inv, Tidy;
    var acts :| Legal(Init(), acts) && s == Run(Init(), acts);
    RunKeepsTidy(Init(), acts);
  }

  // ------------------------------------------------------------------ dead states

  /** No item is there, about to be announced, or held. */
  predicate NoItems(s: State) {
    && s.items == 0
    && (forall i | 0 <= i < |s.producers| :: OwesItem(s.producers[i]) == 0)
    && (forall i | 0 <= i < |s.consumers| :: HoldsItem(s.consumers[i]) == 0)
  }

  /** No free place is there, held, or about to be given back. */
  predicate NoSpace(s: State) {
    && s.space == 0
    && (forall i | 0 <= i < |s.producers| :: HoldsSpace(s.producers[i]) == 0)
    && (forall i | 0 <= i < |s.consumers| :: OwesSpace(s.consumers[i]) == 0)
  }

  predicate Full(s: State) { s.ring.amount == MSG_MAX - 1 }

  /** A live producer is inside and about to take the overflow exit. */
  predicate ExitNext(s: State) {
    Full(s) && exists i :: 0 <= i < |s.producers| && s.producers[i].pc == TestFull
  }

  /** The mutex is lost or about to be, or there is nothing to get and nowhere to put. */
  ghost predicate Doomed(s: State) {
    Blocked(s) || ExitNext(s) || (NoItems(s) && (NoSpace(s) || Full(s)))
  }

  predicate SameLogs(s: State, t: State) { t.puts == s.puts && t.gets == s.gets }

  lemma StarvedProduce(s: State, i: nat, value: nat, data: seq<int>)
    requires RingOk(s) && NoItems(s) && (NoSpace(s) || Full(s)) && Enabled(s, Produce(i, value, data))
    ensures var t := ProducerStep(s, i, value, data);
      SameLogs(s, t) && NoItems(t) && (NoSpace(t) || Full(t))
  {
    assert OwesItem(s.producers[i]) == 0;
    if InsideP(s.producers[i].pc) {
      assert HalfPut(s.puts, |s.gets|, s.ring, s.producers[i]);
    }
    hide Whole, Produced, Wrap, Inc;
  }

  lemma StarvedConsume(s: State, i: nat)
    requires Room(s) && NoItems(s) && (NoSpace(s) || Full(s)) && Enabled(s, Consume(i))
    ensures var t := ConsumerStep(s, i);
      SameLogs(s, t) && NoItems(t) && (NoSpace(t) || Full(t))
  {
    assert HoldsItem(s.consumers[i]) == 0;
    hide Sound, Wrap, Inc;
  }

  lemma StarvedStep(s: State, a: Act)
    requires RingOk(s) && Room(s) && NoItems(s) && (NoSpace(s) || Full(s)) && Enabled(s, a)
    ensures SameLogs(s, Next(s, a)) && NoItems(Next(s, a)) && (NoSpace(Next(s, a)) || Full(Next(s, a)))
  {
    hide RingOk, Room, ProducerStep, ConsumerStep;
    match a
    case Produce(i, value, data) =>
      hide NoItems, NoSpace, Full;
      StarvedProduce(s, i, value, data);
    case Consume(i) =>
      hide NoItems, NoSpace, Full;
      StarvedConsume(s, i);
    case _ =>
  }

  /** While one producer is about to exit nobody else is inside. */
  lemma ExitNextStep(s: State, a: Act)
    requires OneInside(s) && ExitNext(s) && Enabled(s, a)
    ensures SameLogs(s, Next(s, a)) && (ExitNext(Next(s, a)) || Blocked(Next(s, a)))
  {
    var i :| 0 <= i < |s.producers| && s.producers[i].pc == TestFull;
    OthersOutside(s, i);
    hide OneInside, Produced, Sound, Wrap, Inc;
    var t := Next(s, a);
    if i < |t.producers| && t.producers[i].pc == TestFull {
      assert Full(t);
    }
  }

  lemma DoomedStep(s: State, a: Act)
    requires Inv(s) && Tidy(s) && Doomed(s) && Enabled(s, a)
    ensures Doomed(Next(s, a)) && SameLogs(s, Next(s, a))
  {
    ExclusiveMeansOne(s);
    hide Inv, RingOk, OneInside, Blocked, ExitNext, NoItems, NoSpace, Full, Next, Enabled, Room;
    if Blocked(s) {
      BlockedStep(s, a);
    } else if ExitNext(s) {
      ExitNextStep(s, a);
    } else {
      RingOfInv(s);
      StarvedStep(s, a);
    }
  }

  lemma RingOfInv(s: State)
    requires Inv(s)
    ensures RingOk(s)
  {
  }

  lemma {:induction false} DoomedForever(s: State, acts: seq<Act>)
    requires Inv(s) && Tidy(s) && Doomed(s) && Legal(s, acts)
    ensures Doomed(Run(s, acts)) && SameLogs(s, Run(s, acts))
    decreases |acts|
  {
    hide Inv, Tidy, Doomed, Next, Enabled;
    if acts != [] {
      StepKeepsInv(s, acts[0]);
      TidyStep(s, acts[0]);
      DoomedStep(s, acts[0]);
      DoomedForever(Next(s, acts[0]), acts[1..]);
    }
  }

  // ----------------------------------------------------------------- live states

  /** Some continuation completes a put or a get. */
  ghost predicate CanComplete(s: State) {
    exists acts :: Legal(s, acts) && !SameLogs(s, Run(s, acts))
  }

  lemma CompleteAfter(s: State, a: Act)
    requires Enabled(s, a) && (!SameLogs(s, Next(s, a)) || CanComplete(Next(s, a)))
    ensures CanComplete(s)
  {
    hide Enabled, Next, SameLogs;
    RunStep(s, a, []);
    if SameLogs(s, Next(s, a)) {
      var acts :| Legal(Next(s, a), acts) && !SameLogs(Next(s, a), Run(Next(s, a), acts));
      RunStep(s, a, acts);
      LogsChain(s, Next(s, a), Run(Next(s, a), acts));
      assert Legal(s, [a] + acts) && !SameLogs(s, Run(s, [a] + acts));
    } else {
      assert Legal(s, [a] + []) && !SameLogs(s, Run(s, [a] + []));
    }
  }

  lemma LogsChain(s: State, t: State, u: State)
    ensures SameLogs(s, t) ==> (SameLogs(t, u) <==> SameLogs(s, u))
  {
  }

  /** A producer inside, not about to exit, completes its put. */
  lemma {:induction false} PutterCompletes(s: State, i: nat)
    requires i < |s.producers| && InsideP(s.producers[i].pc) && s.producers[i].pc != PostMutexP
    requires s.producers[i].pc == TestFull ==> !Full(s)
    ensures CanComplete(s)
    decreases if s.producers[i].pc == IncAdded then 0 else 1 + Rank(s.producers[i].pc)
  {
    var a := Produce(i, 0, []);
    var t := Next(s, a);
    if s.producers[i].pc == IncAdded {
      assert |t.puts| == |s.puts| + 1;
    } else {
      assert t.producers[i].pc == AfterP(s.producers[i].pc);
      PutterCompletes(t, i);
    }
    hide CanComplete, Next;
    CompleteAfter(s, a);
  }

  function ConsumerRank(pc: ConsPc): nat {
    match pc
    case PostMutexC => 11
    case PostSpace => 10
    case Checking => 9
    case ReportC => 8
    case WaitItems => 7
    case WaitMutexC => 6
    case TestEmpty => 5
    case WrapTail => 4
    case LoadSlot => 3
    case IncTail => 2
    case DecAmount => 1
    case IncExtracted => 0
    case GoneC => 0
  }

  /** A consumer that is inside, or can come inside, completes its get. */
  lemma {:induction false} GetterCompletes(s: State, i: nat)
    requires i < |s.consumers| && !s.consumers[i].pc.GoneC? && s.consumers[i].pc != PostMutexC
    requires InsideC(s.consumers[i].pc) || s.mutex > 0
    requires ConsumerRank(s.consumers[i].pc) >= 7 ==> s.items > 0
    requires ConsumerRank(s.consumers[i].pc) >= 5 ==> s.ring.amount > 0
    ensures CanComplete(s)
    decreases ConsumerRank(s.consumers[i].pc)
  {
    var a := Consume(i);
    var t := Next(s, a);
    if s.consumers[i].pc == IncExtracted {
      assert |t.gets| == |s.gets| + 1;
    } else {
      assert t.consumers[i].pc == AfterC(s.consumers[i].pc);
      GetterCompletes(t, i);
    }
    hide CanComplete, Next;
    CompleteAfter(s, a);
  }

  /** A producer outside that can come inside completes its put. */
  lemma {:induction false} OutsiderCompletes(s: State, i: nat)
    requires i < |s.producers| && !InsideP(s.producers[i].pc) && !s.producers[i].pc.GoneP?
    requires s.mutex > 0 && !Full(s) && (s.producers[i].pc != WaitMutexP ==> s.space > 0)
    ensures CanComplete(s)
    decreases Rank(s.producers[i].pc)
  {
    var a := Produce(i, 0, []);
    var t := Next(s, a);
    assert t.producers[i].pc == AfterP(s.producers[i].pc);
    if s.producers[i].pc == WaitMutexP {
      PutterCompletes(t, i);
    } else {
      OutsiderCompletes(t, i);
    }
    hide CanComplete, Next;
    CompleteAfter(s, a);
  }

  /** With the mutex free and an item there, some consumer, forked if need be, gets a message. */
  lemma ItemsComplete(s: State)
    requires s.exit == Running && NobodyGone(s) && s.mutex > 0 && s.items > 0 && s.ring.amount > 0
    requires forall i | 0 <= i < |s.consumers| :: !InsideC(s.consumers[i].pc)
    ensures CanComplete(s)
  {
    hide CanComplete;
    if s.consumers == [] {
      var a := ForkConsumer(EMPTY_SLOT);
      GetterCompletes(Next(s, a), 0);
      CompleteAfter(s, a);
    } else {
      assert !InsideC(s.consumers[0].pc) && s.consumers[0].pc != GoneC;
      GetterCompletes(s, 0);
    }
  }

  lemma SpaceComplete(s: State)
    requires s.exit == Running && NobodyGone(s) && s.mutex > 0 && s.space > 0 && !Full(s)
    requires forall i | 0 <= i < |s.producers| :: !InsideP(s.producers[i].pc)
    ensures CanComplete(s)
  {
    hide CanComplete, Full;
    if s.producers == [] {
      var a := ForkProducer(EMPTY_SLOT);
      assert Full(Next(s, a)) == Full(s) by { SameAmountSameFull(s, Next(s, a)); }
      OutsiderCompletes(Next(s, a), 0);
      CompleteAfter(s, a);
    } else {
      assert !InsideP(s.producers[0].pc) && s.producers[0].pc != GoneP;
      OutsiderCompletes(s, 0);
    }
  }

  lemma SameAmountSameFull(s: State, t: State)
    requires s.ring.amount == t.ring.amount
    ensures Full(s) == Full(t)
  {
  }

  /** Nobody is inside and the mutex is free. */
  predicate Free(s: State) {
    && s.mutex > 0 && s.exit == Running && NobodyGone(s)
    && (forall i | 0 <= i < |s.producers| :: !InsideP(s.producers[i].pc))
    && (forall i | 0 <= i < |s.consumers| :: !InsideC(s.consumers[i].pc))
  }

  lemma FreeWithItems(s: State)
    requires Inv(s) && Free(s) && !NoItems(s)
    ensures CanComplete(s)
  {
    hide CanComplete, RingOk, LogsOk, SoundHands;
    if i :| 0 <= i < |s.consumers| && HoldsItem(s.consumers[i]) != 0 {
      ItemHeld(s, i);
      GetterCompletes(s, i);
    } else if s.items > 0 {
      AmountOfItems(s);
      ItemsComplete(s);
    } else {
      var i :| 0 <= i < |s.producers| && OwesItem(s.producers[i]) != 0;
      assert s.producers[i].pc == PostItems;
      var a := Produce(i, 0, []);
      AmountOwed(s, i);
      ItemsComplete(Next(s, a));
      CompleteAfter(s, a);
    }
  }

  lemma AmountOfItems(s: State)
    requires ItemsBounded(s) && s.items > 0
    ensures s.ring.amount > 0
  {
    SumBounds(s.producers, OwesItem, 0, 1);
    SumBounds(s.consumers, HoldsItem, 0, 1);
  }

  lemma AmountOwed(s: State, i: nat)
    requires ItemsBounded(s) && i < |s.producers| && OwesItem(s.producers[i]) != 0
    ensures s.ring.amount > 0
  {
    SumAtLeast(s.producers, i, OwesItem);
    SumBounds(s.consumers, HoldsItem, 0, 1);
  }

  lemma FreeWithSpace(s: State)
    requires Free(s) && !NoSpace(s) && !Full(s)
    ensures CanComplete(s)
  {
    hide CanComplete;
    if i :| 0 <= i < |s.producers| && HoldsSpace(s.producers[i]) != 0 {
      OutsiderCompletes(s, i);
    } else if s.space > 0 {
      SpaceComplete(s);
    } else {
      var i :| 0 <= i < |s.consumers| && OwesSpace(s.consumers[i]) != 0;
      assert s.consumers[i].pc == PostSpace;
      var a := Consume(i);
      SpaceComplete(Next(s, a));
      CompleteAfter(s, a);
    }
  }

  lemma FreeCompletes(s: State)
    requires Inv(s) && Free(s) && !Doomed(s)
    ensures CanComplete(s)
  {
    hide Inv, CanComplete, NoItems, NoSpace, Full, Blocked, ExitNext, Free;
    if !NoItems(s) {
      FreeWithItems(s);
    } else {
      FreeWithSpace(s);
    }
  }

  /** Whoever is inside after its put or get leaves, and takes with it neither items nor places. */
  lemma LeaverP(s: State, i: nat)
    requires Inv(s) && OneInside(s) && s.exit == Running && NobodyGone(s)
    requires i < |s.producers| && s.producers[i].pc == PostMutexP
    ensures CanComplete(s)
  {
    var a := Produce(i, 0, []);
    OthersOutside(s, i);
    StepKeepsInv(s, a);
    hide CanComplete, Inv, OneInside;
    var t := Next(s, a);
    assert OwesItem(t.producers[i]) == 1;
    FreeWithItems(t);
    CompleteAfter(s, a);
  }

  lemma LeavingTakesNothing(s: State, i: nat)
    requires Enabled(s, Consume(i)) && s.consumers[i].pc == PostMutexC
    ensures NoItems(Next(s, Consume(i))) ==> NoItems(s)
    ensures Full(Next(s, Consume(i))) == Full(s)
  {
    var t := Next(s, Consume(i));
    assert t.items == s.items && t.producers == s.producers;
    if NoItems(t) {
      forall j | 0 <= j < |s.consumers|
        ensures HoldsItem(s.consumers[j]) == 0
      {
        assert j != i ==> t.consumers[j] == s.consumers[j];
        assert HoldsItem(t.consumers[j]) == 0;
      }
    }
  }

  lemma LeaverC(s: State, i: nat)
    requires Inv(s) && OneInside(s) && s.exit == Running && NobodyGone(s) && !Doomed(s)
    requires i < |s.consumers| && s.consumers[i].pc == PostMutexC
    ensures CanComplete(s)
  {
    var a := Consume(i);
    OthersOutsideC(s, i);
    StepKeepsInv(s, a);
    var t := Next(s, a);
    LeavingTakesNothing(s, i);
    hide CanComplete, Inv, OneInside, NoItems, Full;
    assert OwesSpace(t.consumers[i]) == 1;
    if NoItems(t) {
      FreeWithSpace(t);
    } else {
      FreeWithItems(t);
    }
    CompleteAfter(s, a);
  }

  lemma InsiderCompletes(s: State)
    requires Inv(s) && OneInside(s) && s.exit == Running && NobodyGone(s) && !Doomed(s) && s.mutex == 0
    ensures CanComplete(s)
  {
    if i :| 0 <= i < |s.producers| && InsideP(s.producers[i].pc) {
      hide Inv, OneInside, CanComplete;
      if s.producers[i].pc == PostMutexP {
        LeaverP(s, i);
      } else {
        PutterCompletes(s, i);
      }
    } else {
      var i :| 0 <= i < |s.consumers| && InsideC(s.consumers[i].pc);
      hide OneInside, CanComplete, RingOk, LogsOk, SoundHands;
      if s.consumers[i].pc == PostMutexC {
        LeaverC(s, i);
      } else {
        if s.consumers[i].pc == TestEmpty {
          ItemHeld(s, i);
        }
        GetterCompletes(s, i);
      }
    }
  }

  lemma AliveCompletes(s: State)
    requires Inv(s) && Tidy(s) && !Doomed(s)
    ensures CanComplete(s)
  {
    ExclusiveMeansOne(s);
    hide Inv, CanComplete, Room, ExitNext, NoItems, NoSpace, Full;
    if s.mutex == 0 {
      InsiderCompletes(s);
    } else {
      FreeCompletes(s);
    }
  }

  /** Exactly when the queue is dead: no continuation completes a put or a get if and only if
      the mutex is lost, or its holder is about to exit, or nothing is left to get while there
      is no place left to put or the amount is the one at which put_msg exits. */
  lemma DeadIff(s: State)
    requires Reachable(s)
    ensures CanComplete(s) <==> !Doomed(s)
  {
    ReachableTidy(s);
    hide Inv, Tidy, Doomed, Reachable;
    if Doomed(s) {
      forall acts | Legal(s, acts)
        ensures SameLogs(s, Run(s, acts))
      {
        DoomedForever(s, acts);
      }
    } else {
      AliveCompletes(s);
    }
  }

  // ------------------------------------------------------------------ starvation

  /** Nobody is there, nothing is in the queue, and k places are left. */
  predicate Deserted(s: State, k: nat) {
    && s.exit == Running && s.mutex == 1 && s.producers == [] && s.consumers == []
    && s.items == 0 && s.ring.amount == 0 && s.space == k
  }

  /** A producer is forked, takes a place and is killed before it has the mutex. */
  lemma PlaceLost(s: State, k: nat) returns (acts: seq<Act>)
    requires Deserted(s, k) && k > 0
    ensures Legal(s, acts) && Deserted(Run(s, acts), k - 1)
  {
    var fork, p := ForkProducer(EMPTY_SLOT), Produce(0, 0, []);
    var s1 := Next(s, fork);
    assert s1.producers == [Producer(Making, EMPTY_SLOT)];
    var s2 := Next(s1, p);
    assert |s2.producers| == 1 && s2.producers[0].pc == WaitSpace;
    var s3 := Next(s2, p);
    assert |s3.producers| == 1;
    var s4 := Next(s3, KillProducer);
    hide Next, Enabled, Deserted;
    RunStep(s3, KillProducer, []);
    RunStep(s2, p, [KillProducer] + []);
    RunStep(s1, p, [p] + ([KillProducer] + []));
    RunStep(s, fork, [p] + ([p] + ([KillProducer] + [])));
    acts := [fork] + ([p] + ([p] + ([KillProducer] + [])));
  }

  lemma {:induction false} AllPlacesLost(s: State, k: nat) returns (acts: seq<Act>)
    requires Deserted(s, k)
    ensures Legal(s, acts) && Deserted(Run(s, acts), 0)
    decreases k
  {
    hide Deserted, Enabled, Next;
    acts := [];
    if k > 0 {
      acts := PlaceLost(s, k);
      var rest := AllPlacesLost(Run(s, acts), k - 1);
      RunConcat(s, acts, rest);
      acts := acts + rest;
    }
  }

  lemma {:induction false} RunConcat(s: State, a: seq<Act>, b: seq<Act>)
    requires Legal(s, a) && Legal(Run(s, a), b)
    ensures Legal(s, a + b) && Run(s, a + b) == Run(Run(s, a), b)
    decreases |a|
  {
    hide Enabled, Next;
    if a == [] {
      assert a + b == b;
    } else {
      RunConcat(Next(s, a[0]), a[1..], b);
      assert a + b == [a[0]] + (a[1..] + b);
      RunStep(s, a[0], a[1..] + b);
    }
  }

  /** The queue can die with its mutex free: enough producers killed between the two waits take
      all the places with them. */
  lemma StarvationReachable()
    ensures exists s :: Reachable(s) && Usable(s) && s.mutex == 1 && s.exit == Running && Doomed(s)
  {
    assert Deserted(Init(), MSG_MAX);
    var acts := AllPlacesLost(Init(), MSG_MAX);
    var s := Run(Init(), acts);
    assert Reachable(s);
    hide Reachable;
    assert Sum(s.producers, HoldsMutexP) == 0 && Sum(s.consumers, HoldsMutexC) == 0;
    assert NoItems(s) && NoSpace(s);
  }
}
