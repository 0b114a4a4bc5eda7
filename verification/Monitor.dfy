/** The condition-variable queue of LAB_7/p1: one mutex, two condition variables, any number
    of producers and consumers, and main as one more of each. Waiting threads may be woken
    without a signal, and threads that come later may overtake them. Threads are created at
    will; cancellation is not part of this model. */
module Monitor {
  import opened Base
  import opened Messages

  datatype Role = Main | Producer | Consumer

  /** Fetch is reached from the first look at the count as well as from the look after a
      wait; Retest is that second look. */
  datatype Pc =
    | Outside
    | LockP | TestP | AsleepP | WokenP | Add | SignalC | UnlockP
    | CheckEmpty | LockC | TestC | AsleepC | WokenC | Retest | Fetch | SignalP | UnlockC

  datatype Thread = Thread(role: Role, pc: Pc)

  datatype Exit = Running | Overflow | Underflow

  datatype State = State(amount: nat, mutex: Option<nat>, threads: seq<Thread>, exit: Exit)

  function Init(): State { State(0, None, [Thread(Main, Outside)], Running) }

  /** Move of a thread: `wake` names the waiter a signal reaches, `plus` is main's choice of
      command. Spurious wakes a waiter for no reason. */
  datatype Act =
    | Move(i: nat, wake: nat, plus: bool)
    | Spurious(i: nat)
    | Create(role: Role)

  predicate Waits(s: State, pc: Pc, i: nat) { i < |s.threads| && s.threads[i].pc == pc }

  /** A signal wakes one waiter if there is any. */
  ghost predicate Receiver(s: State, pc: Pc, w: nat) {
    Waits(s, pc, w) || forall j | 0 <= j < |s.threads| :: s.threads[j].pc != pc
  }

  ghost predicate Enabled(s: State, a: Act) {
    s.exit == Running &&
    match a
    case Move(i, w, _) =>
      i < |s.threads| &&
      (match s.threads[i].pc
       case LockP => s.mutex.None?
       case LockC => s.mutex.None?
       case WokenP => s.mutex.None?
       case WokenC => s.mutex.None?
       case AsleepP => false
       case AsleepC => false
       case SignalC => Receiver(s, AsleepC, w)
       case SignalP => Receiver(s, AsleepP, w)
       case _ => true)
    case Spurious(i) => i < |s.threads| && (s.threads[i].pc == AsleepP || s.threads[i].pc == AsleepC)
    case Create(role) => role != Main
  }

  function Goto(s: State, i: nat, pc: Pc): (t: State)
    requires i < |s.threads|
    ensures |t.threads| == |s.threads|
  {
    s.(threads := s.threads[i := s.threads[i].(pc := pc)])
  }

  function Wake(s: State, from: Pc, to: Pc, w: nat): (t: State)
    ensures |t.threads| == |s.threads|
  {
    if Waits(s, from, w) then Goto(s, w, to) else s
  }

  function Next(s: State, a: Act): State
    requires Enabled(s, a)
  {
    match a
    case Move(i, w, plus) => MoveOf(s, i, w, plus)
    case Spurious(i) => Goto(s, i, if s.threads[i].pc == AsleepP then WokenP else WokenC)
    case Create(role) => s.(threads := s.threads + [Thread(role, Outside)])
  }

  /** pthread_cond_wait gives up the mutex and falls asleep in one step. */
  function MoveOf(s: State, i: nat, w: nat, plus: bool): State
    requires i < |s.threads|
  {
    match s.threads[i].pc
    case Outside =>
      Goto(s, i, match s.threads[i].role
                 case Producer => LockP
                 case Consumer => LockC
                 case Main => if plus then LockP else CheckEmpty)
    case CheckEmpty => Goto(s, i, if s.amount == 0 then Outside else LockC)
    case LockP => Goto(s, i, TestP).(mutex := Some(i))
    case TestP => if s.amount == MSG_MAX then Goto(s, i, AsleepP).(mutex := None) else Goto(s, i, Add)
    case WokenP => Goto(s, i, TestP).(mutex := Some(i))
    case Add => if s.amount == MSG_MAX - 1 then s.(exit := Overflow) else Goto(s, i, SignalC).(amount := s.amount + 1)
    case SignalC => Goto(Wake(s, AsleepC, WokenC, w), i, UnlockP)
    case UnlockP => Goto(s, i, Outside).(mutex := None)
    case LockC => Goto(s, i, TestC).(mutex := Some(i))
    case TestC => if s.amount == 0 then Goto(s, i, AsleepC).(mutex := None) else Goto(s, i, Fetch)
    case WokenC => Goto(s, i, Retest).(mutex := Some(i))
    case Retest => if s.amount == 0 then Goto(s, i, AsleepC).(mutex := None) else Goto(s, i, Fetch)
    case Fetch => if s.amount == 0 then s.(exit := Underflow) else Goto(s, i, SignalP).(amount := s.amount - 1)
    case SignalP => Goto(Wake(s, AsleepP, WokenP, w), i, UnlockC)
    case UnlockC => Goto(s, i, Outside).(mutex := None)
    case AsleepP => s
    case AsleepC => s
  }

  ghost predicate Legal(s: State, acts: seq<Act>)
    decreases |acts|
  {
    acts == [] || (Enabled(s, acts[0]) && Legal(Next(s, acts[0]), acts[1..]))
  }

  ghost function Run(s: State, acts: seq<Act>): State
    requires Legal(s, acts)
    decreases |acts|
  {
    if acts == [] then s else Run(Next(s, acts[0]), acts[1..])
  }

  ghost predicate Reachable(s: State) {
    exists acts :: Legal(Init(), acts) && s == Run(Init(), acts)
  }

  // ------------------------------------------------------------ the invariant

  predicate Inside(pc: Pc) {
    || pc.TestP? || pc.Add? || pc.SignalC? || pc.UnlockP?
    || pc.TestC? || pc.Retest? || pc.Fetch? || pc.SignalP? || pc.UnlockC?
  }

  /** A consumer that has been woken and has not got the mutex back yet. */
  function Woken(t: Thread): int { if t.pc == WokenC then 1 else 0 }

  /** The message the owner of the mutex answers for: one it is about to take, or one it has
      added and not yet signalled. */
  function InHand(s: State): int {
    if s.mutex.Some? && s.mutex.value < |s.threads| && AnswersFor(s.threads[s.mutex.value].pc) then 1 else 0
  }

  predicate AnswersFor(pc: Pc) { pc.Retest? || pc.Fetch? || pc.SignalC? }

  ghost predicate SomebodyAsleep(s: State) {
    exists i :: Waits(s, AsleepC, i)
  }

  ghost predicate Owned(s: State) {
    && (forall i | 0 <= i < |s.threads| :: Inside(s.threads[i].pc) <==> s.mutex == Some(i))
    && (s.mutex.Some? ==> s.mutex.value < |s.threads|)
  }

  ghost predicate Accounted(s: State) {
    SomebodyAsleep(s) ==> s.amount <= Sum(s.threads, Woken) + InHand(s)
  }

  /** The facts that do not count anything. */
  ghost predicate Plain(s: State) {
    && Owned(s) && s.amount <= MSG_MAX - 1 && s.exit != Underflow
    && (forall i | 0 <= i < |s.threads| :: s.threads[i].pc != AsleepP && s.threads[i].pc != WokenP)
    && (forall i | 0 <= i < |s.threads| && s.threads[i].pc == Fetch :: s.amount > 0)
  }

  ghost predicate Inv(s: State) { Plain(s) && Accounted(s) }

  // ------------------------------------------------------------------- proofs

  lemma WokenSum(s: State, i: nat, pc: Pc)
    requires i < |s.threads|
    ensures Sum(Goto(s, i, pc).threads, Woken) ==
      Sum(s.threads, Woken) - Woken(s.threads[i]) + (if pc == WokenC then 1 else 0)
  {
    SumUpdate(s.threads, i, s.threads[i].(pc := pc), Woken);
  }

  lemma MovePlain(s: State, i: nat, w: nat, plus: bool)
    requires Plain(s) && Enabled(s, Move(i, w, plus)) && s.threads[i].pc != SignalC && s.threads[i].pc != SignalP
    ensures Plain(MoveOf(s, i, w, plus))
  {
    hide Receiver, Wake;
  }

  lemma SignalPlain(s: State, i: nat, w: nat, plus: bool)
    requires Plain(s) && Enabled(s, Move(i, w, plus)) && (s.threads[i].pc == SignalC || s.threads[i].pc == SignalP)
    ensures Plain(MoveOf(s, i, w, plus))
  {
    hide Receiver;
  }

  lemma PlainKept(s: State, a: Act)
    requires Plain(s) && Enabled(s, a)
    ensures Plain(Next(s, a))
  {
    match a
    case Move(i, w, plus) =>
      hide Plain, MoveOf;
      if s.threads[i].pc == SignalC || s.threads[i].pc == SignalP {
        SignalPlain(s, i, w, plus);
      } else {
        MovePlain(s, i, w, plus);
      }
    case Spurious(i) =>
    case Create(role) =>
  }

  lemma NobodyAsleep(s: State, t: State)
    requires !SomebodyAsleep(s) && |t.threads| == |s.threads|
    requires forall i | 0 <= i < |s.threads| :: t.threads[i].pc == AsleepC ==> s.threads[i].pc == AsleepC
    ensures !SomebodyAsleep(t)
  {
    assert forall i :: Waits(t, AsleepC, i) ==> Waits(s, AsleepC, i);
  }

  /** Unless the moving thread falls asleep itself, which it does only when the queue is
      empty, nobody is asleep afterwards who was not before. */
  lemma NoNewSleeper(s: State, i: nat, w: nat, plus: bool)
    requires Plain(s) && Enabled(s, Move(i, w, plus))
    ensures var t := MoveOf(s, i, w, plus); SomebodyAsleep(t) ==> SomebodyAsleep(s) || t.amount == 0
  {
    var t := MoveOf(s, i, w, plus);
    if !SomebodyAsleep(s) && t.amount > 0 {
      NobodyAsleep(s, t);
    }
  }

  lemma MoveDelta(s: State, i: nat, w: nat, plus: bool)
    requires Plain(s) && Enabled(s, Move(i, w, plus)) && s.threads[i].pc != SignalC && s.threads[i].pc != SignalP
    ensures var t := MoveOf(s, i, w, plus);
      t.threads == s.threads || (|t.threads| == |s.threads| && t.threads == Goto(s, i, t.threads[i].pc).threads)
    ensures var t := MoveOf(s, i, w, plus);
      |t.threads| == |s.threads| && t.threads[i].pc != WokenC
      && (t.amount == 0 || t.amount - s.amount <= InHand(t) - InHand(s) - Woken(s.threads[i]))
  {
    hide Receiver;
  }

  lemma MoveAccounted(s: State, i: nat, w: nat, plus: bool)
    requires Plain(s) && Accounted(s) && Enabled(s, Move(i, w, plus))
    requires s.threads[i].pc != SignalC && s.threads[i].pc != SignalP
    ensures Accounted(MoveOf(s, i, w, plus))
  {
    var t := MoveOf(s, i, w, plus);
    MoveDelta(s, i, w, plus);
    NoNewSleeper(s, i, w, plus);
    WokenSum(s, i, t.threads[i].pc);
    SumBounds(t.threads, Woken, 0, 1);
    hide Sum, MoveOf, Plain, SomebodyAsleep, Enabled;
  }

  /** The signal of a producer wakes one sleeping consumer if there is one. */
  lemma SignalDelta(s: State, i: nat, w: nat, plus: bool)
    requires Plain(s) && Enabled(s, Move(i, w, plus)) && s.threads[i].pc == SignalC
    ensures var t := MoveOf(s, i, w, plus);
      && t.amount == s.amount && InHand(s) == 1 && InHand(t) == 0
      && (SomebodyAsleep(s) ==> Sum(t.threads, Woken) == Sum(s.threads, Woken) + 1)
  {
    var u := Wake(s, AsleepC, WokenC, w);
    assert u.threads[i] == s.threads[i];
    WokenSum(u, i, UnlockP);
    if Waits(s, AsleepC, w) {
      WokenSum(s, w, WokenC);
    }
    hide Sum;
  }

  /** The signal of a consumer finds nobody. */
  lemma IdleSignalDelta(s: State, i: nat, w: nat, plus: bool)
    requires Plain(s) && Enabled(s, Move(i, w, plus)) && s.threads[i].pc == SignalP
    ensures var t := MoveOf(s, i, w, plus);
      t.amount == s.amount && InHand(s) == InHand(t) == 0 && Sum(t.threads, Woken) == Sum(s.threads, Woken)
  {
    assert Wake(s, AsleepP, WokenP, w) == s;
    WokenSum(s, i, UnlockC);
    hide Sum;
  }

  lemma SignalAccounted(s: State, i: nat, w: nat, plus: bool)
    requires Plain(s) && Accounted(s) && Enabled(s, Move(i, w, plus))
    requires s.threads[i].pc == SignalC || s.threads[i].pc == SignalP
    ensures Accounted(MoveOf(s, i, w, plus))
  {
    var t := MoveOf(s, i, w, plus);
    NoNewSleeper(s, i, w, plus);
    SumBounds(t.threads, Woken, 0, 1);
    hide Sum, MoveOf, Plain, SomebodyAsleep, InHand;
    if s.threads[i].pc == SignalC {
      SignalDelta(s, i, w, plus);
    } else {
      IdleSignalDelta(s, i, w, plus);
    }
  }

  lemma SpuriousAccounted(s: State, i: nat)
    requires Plain(s) && Accounted(s) && Enabled(s, Spurious(i))
    ensures Accounted(Next(s, Spurious(i)))
  {
    WokenSum(s, i, WokenC);
    assert Waits(s, AsleepC, i);
    hide Sum;
  }

  lemma CreateAccounted(s: State, role: Role)
    requires Owned(s) && Accounted(s) && Enabled(s, Create(role))
    ensures Accounted(Next(s, Create(role)))
  {
    var t := Next(s, Create(role));
    SumAppend(s.threads, Thread(role, Outside), Woken);
    hide Sum;
    if SomebodyAsleep(t) {
      var i :| Waits(t, AsleepC, i);
      assert Waits(s, AsleepC, i);
    }
  }

  lemma StepKeepsInv(s: State, a: Act)
    requires Inv(s) && Enabled(s, a)
    ensures Inv(Next(s, a))
  {
    PlainKept(s, a);
    hide Accounted, MoveOf;
    match a
    case Move(i, w, plus) =>
      if s.threads[i].pc == SignalC || s.threads[i].pc == SignalP {
        SignalAccounted(s, i, w, plus);
      } else {
        MoveAccounted(s, i, w, plus);
      }
    case Spurious(i) => SpuriousAccounted(s, i);
    case Create(role) => CreateAccounted(s, role);
  }

  lemma InitInv()
    ensures Inv(Init())
  {
    assert forall i :: !Waits(Init(), AsleepC, i);
  }

  lemma {:induction false} RunKeepsInv(s: State, acts: seq<Act>)
    requires Inv(s) && Legal(s, acts)
    ensures Inv(Run(s, acts))
    decreases |acts|
  {
    hide Inv, Next, Enabled;
    if acts != [] {
      StepKeepsInv(s, acts[0]);
      RunKeepsInv(Next(s, acts[0]), acts[1..]);
    }
  }

  lemma ReachableInv(s: State)
    requires Reachable(s)
    ensures Inv(s)
  {
    hide Inv;
    var acts :| Legal(Init(), acts) && s == Run(Init(), acts);
    InitInv();
    RunKeepsInv(Init(), acts);
  }

  // ----------------------------------------------------------------- theorems

  /** No wakeup is lost: whenever the mutex is free and some consumer is asleep, there is a
      woken consumer on its way for every message in the queue. */
  lemma NoLostWakeup(s: State)
    requires Reachable(s) && s.mutex.None? && SomebodyAsleep(s)
    ensures s.amount <= Sum(s.threads, Woken)
  {
    ReachableInv(s);
  }

  /** So a message never waits beside sleeping consumers with nobody to take it: some
      consumer has been woken and can have the mutex. */
  lemma MessageFindsConsumer(s: State)
    requires Reachable(s) && s.exit == Running && s.mutex.None? && SomebodyAsleep(s) && s.amount > 0
    ensures exists i :: 0 <= i < |s.threads| && s.threads[i].pc == WokenC && Enabled(s, Move(i, 0, true))
  {
    NoLostWakeup(s);
    if forall i | 0 <= i < |s.threads| :: s.threads[i].pc != WokenC {
      SumBounds(s.threads, Woken, 0, 0);
    } else {
      var i :| 0 <= i < |s.threads| && s.threads[i].pc == WokenC;
      assert Enabled(s, Move(i, 0, true));
    }
  }

  /** Nobody ever waits for room: the exit at MSG_MAX - 1 comes before the wait at MSG_MAX,
      and get_msg never meets an empty queue. */
  lemma NobodyWaitsForRoom(s: State)
    requires Reachable(s)
    ensures s.amount <= MSG_MAX - 1 && s.exit != Underflow
    ensures forall i | 0 <= i < |s.threads| :: s.threads[i].pc != AsleepP && s.threads[i].pc != WokenP
    ensures forall i, j | 0 <= i < j < |s.threads| :: !(Inside(s.threads[i].pc) && Inside(s.threads[j].pc))
  {
    ReachableInv(s);
  }

  /** Main alone, with no other thread created, giving the command '+' again and again. */
  ghost predicate Lone(s: State) {
    && s.exit == Running && |s.threads| == 1 && s.threads[0].role == Main && s.amount <= MSG_MAX - 1
    && match s.threads[0].pc
       case Outside => s.mutex.None?
       case LockP => s.mutex.None?
       case TestP => s.mutex == Some(0)
       case Add => s.mutex == Some(0)
       case SignalC => s.mutex == Some(0)
       case UnlockP => s.mutex == Some(0)
       case _ => false
  }

  /** Steps of main before the amount grows again. */
  function Rank(pc: Pc): nat {
    match pc
    case SignalC => 5
    case UnlockP => 4
    case Outside => 3
    case LockP => 2
    case TestP => 1
    case _ => 0
  }

  lemma LoneStep(s: State)
    requires Lone(s)
    ensures var a := Move(0, 0, true);
      Enabled(s, a) && (Next(s, a).exit == Overflow ||
      (Lone(Next(s, a)) && 6 * (MSG_MAX - Next(s, a).amount) + Rank(Next(s, a).threads[0].pc)
                           < 6 * (MSG_MAX - s.amount) + Rank(s.threads[0].pc)))
  {
  }

  lemma {:induction false} LoneToOverflow(s: State) returns (acts: seq<Act>)
    requires Lone(s)
    ensures Legal(s, acts) && Run(s, acts).exit == Overflow
    decreases 6 * (MSG_MAX - s.amount) + Rank(s.threads[0].pc)
  {
    var a := Move(0, 0, true);
    LoneStep(s);
    var rest := [];
    if Next(s, a).exit != Overflow {
      rest := LoneToOverflow(Next(s, a));
    }
    hide Lone, Enabled, Next;
    acts := [a] + rest;
    assert acts[1..] == rest;
  }

  /** The overflow exit, unlike the wait for room, can be reached. */
  lemma OverflowReachable()
    ensures exists s :: Reachable(s) && s.exit == Overflow
  {
    assert Lone(Init());
    var acts := LoneToOverflow(Init());
    assert Reachable(Run(Init(), acts));
  }
}
