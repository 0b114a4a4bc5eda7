/** Producer and consumer threads around the ring: semaphores free_space and items, a mutex,
    threads created and cancelled at will. The step system has one step per call that other
    threads can notice. */
module SemQueue {
  import opened Base
  import opened Checksum
  import opened Messages
  import opened RingQueue

  /** What free_space starts at and the amount at which put_msg exits. The program uses
      MSG_MAX and MSG_MAX - 1. */
  datatype Config = Config(space: nat, guard: nat)

  const PROGRAM := Config(MSG_MAX, MSG_MAX - 1)

  predicate Valid(c: Config) { c.guard <= MSG_MAX }

  datatype ProdPc = Making | WaitSpace | LockP | Putting | UnlockP | PostItems | ReportP | SleepP

  datatype ConsPc = WaitItems | LockC | Getting | UnlockC | PostSpace | Checking | ReportC | SleepC

  datatype Producer = Producer(pc: ProdPc, msg: Msg, ticket: nat)

  datatype Consumer = Consumer(pc: ConsPc, msg: Msg, ticket: nat)

  datatype Owner = ByProducer(i: nat) | ByConsumer(i: nat)

  /** What main is doing: reading commands, or joining the thread it has cancelled. */
  datatype Main = Reading | JoiningProducer | JoiningConsumer

  datatype Exit = Running | Overflow | Underflow

  /** `puts` and `gets` log every completed put_msg and get_msg: the number it returned and
      the message. `complaints` counts failed checksum comparisons. */
  datatype State = State(
    space: nat, items: nat, mutex: Option<Owner>, ring: Ring,
    producers: seq<Producer>, consumers: seq<Consumer>, main: Main, exit: Exit,
    puts: seq<(nat, Msg)>, gets: seq<(nat, Msg)>, complaints: nat)

  function Init(c: Config): State {
    State(c.space, 0, None, Fresh(), [], [], Reading, Running, [], [], 0)
  }

  /** A producer's step carries the random numbers produce_msg would draw; creation of a
      thread carries the contents of its uninitialised message. */
  datatype Act =
    | Produce(i: nat, value: nat, data: seq<int>)
    | Consume(i: nat)
    | CreateProducer(m: Msg)
    | CreateConsumer(m: Msg)
    | RemoveProducer
    | RemoveConsumer
    | ProducerDies
    | ConsumerDies

  /** Calls at which a cancelled thread ends: sem_wait, printf and sleep. None of them lies
      between a sem_wait that succeeded and the matching sem_post. */
  predicate CancelPointP(pc: ProdPc) { pc.WaitSpace? || pc.ReportP? || pc.SleepP? }

  predicate CancelPointC(pc: ConsPc) { pc.WaitItems? || pc.ReportC? || pc.SleepC? }

  predicate Enabled(s: State, a: Act) {
    s.exit == Running &&
    match a
    case Produce(i, _, _) =>
      i < |s.producers| &&
      (match s.producers[i].pc
       case WaitSpace => s.space > 0
       case LockP => s.mutex.None?
       case _ => true)
    case Consume(i) =>
      i < |s.consumers| &&
      (match s.consumers[i].pc
       case WaitItems => s.items > 0
       case LockC => s.mutex.None?
       case _ => true)
    case CreateProducer(_) => s.main == Reading && |s.producers| < CHILD_MAX - 1
    case CreateConsumer(_) => s.main == Reading && |s.consumers| < CHILD_MAX - 1
    case RemoveProducer => s.main == Reading && s.producers != []
    case RemoveConsumer => s.main == Reading && s.consumers != []
    case ProducerDies =>
      s.main == JoiningProducer && s.producers != [] && CancelPointP(s.producers[|s.producers| - 1].pc)
    case ConsumerDies =>
      s.main == JoiningConsumer && s.consumers != [] && CancelPointC(s.consumers[|s.consumers| - 1].pc)
  }

  function Next(c: Config, s: State, a: Act): State
    requires Enabled(s, a)
  {
    match a
    case Produce(i, value, data) => ProducerStep(c, s, i, value, data)
    case Consume(i) => ConsumerStep(s, i)
    case CreateProducer(m) => s.(producers := s.producers + [Producer(Making, m, 0)])
    case CreateConsumer(m) => s.(consumers := s.consumers + [Consumer(WaitItems, m, 0)])
    case RemoveProducer => s.(main := JoiningProducer)
    case RemoveConsumer => s.(main := JoiningConsumer)
    case ProducerDies => s.(main := Reading, producers := s.producers[..|s.producers| - 1])
    case ConsumerDies => s.(main := Reading, consumers := s.consumers[..|s.consumers| - 1])
  }

  function GotoP(s: State, i: nat, p: Producer): State
    requires i < |s.producers|
  {
    s.(producers := s.producers[i := p])
  }

  function GotoC(s: State, i: nat, p: Consumer): State
    requires i < |s.consumers|
  {
    s.(consumers := s.consumers[i := p])
  }

  predicate Shaped(r: Ring) { |r.buffer| == MSG_MAX && r.head <= MSG_MAX && r.tail <= MSG_MAX }

  function ProducerStep(c: Config, s: State, i: nat, value: nat, data: seq<int>): (t: State)
    requires Enabled(s, Produce(i, value, data))
    ensures |t.producers| == |s.producers| && t.consumers == s.consumers && t.main == s.main
  {
    var p := s.producers[i];
    match p.pc
    case Making => GotoP(s, i, p.(pc := WaitSpace, msg := Produced(p.msg, value, data)))
    case WaitSpace => GotoP(s, i, p.(pc := LockP)).(space := s.space - 1)
    case LockP => GotoP(s, i, p.(pc := Putting)).(mutex := Some(ByProducer(i)))
    case Putting =>
      if s.ring.amount == c.guard then s.(exit := Overflow)
      else if Shaped(s.ring) then
        var r := Put(s.ring, p.msg);
        GotoP(s, i, p.(pc := UnlockP, ticket := r.added)).(ring := r, puts := s.puts + [(r.added, p.msg)])
      else s
    case UnlockP => GotoP(s, i, p.(pc := PostItems)).(mutex := None)
    case PostItems => GotoP(s, i, p.(pc := ReportP)).(items := s.items + 1)
    case ReportP => GotoP(s, i, p.(pc := SleepP))
    case SleepP => GotoP(s, i, p.(pc := Making))
  }

  function ConsumerStep(s: State, i: nat): (t: State)
    requires Enabled(s, Consume(i))
    ensures |t.consumers| == |s.consumers| && t.producers == s.producers && t.main == s.main
  {
    var p := s.consumers[i];
    match p.pc
    case WaitItems => GotoC(s, i, p.(pc := LockC)).(items := s.items - 1)
    case LockC => GotoC(s, i, p.(pc := Getting)).(mutex := Some(ByConsumer(i)))
    case Getting =>
      if s.ring.amount == 0 then s.(exit := Underflow)
      else if Shaped(s.ring) then
        var r, m := Get(s.ring), Front(s.ring);
        GotoC(s, i, p.(pc := UnlockC, msg := m, ticket := r.extracted)).(ring := r, gets := s.gets + [(r.extracted, m)])
      else s
    case UnlockC => GotoC(s, i, p.(pc := PostSpace)).(mutex := None)
    case PostSpace => GotoC(s, i, p.(pc := Checking)).(space := s.space + 1)
    case Checking => GotoC(s, i, p.(pc := ReportC)).(complaints := s.complaints + (if Sound(p.msg) then 0 else 1))
    case ReportC => GotoC(s, i, p.(pc := SleepC))
    case SleepC => GotoC(s, i, p.(pc := WaitItems))
  }

  predicate Legal(c: Config, s: State, acts: seq<Act>)
    decreases |acts|
  {
    acts == [] || (Enabled(s, acts[0]) && Legal(c, Next(c, s, acts[0]), acts[1..]))
  }

  function Run(c: Config, s: State, acts: seq<Act>): State
    requires Legal(c, s, acts)
    decreases |acts|
  {
    if acts == [] then s else Run(c, Next(c, s, acts[0]), acts[1..])
  }

  ghost predicate Reachable(c: Config, s: State) {
    exists acts :: Legal(c, Init(c), acts) && s == Run(c, Init(c), acts)
  }

  // ------------------------------------------------------------ the invariant

  /** Producers that have taken a free place and not yet filled it. */
  function HoldsSpace(p: Producer): int { if p.pc.LockP? || p.pc.Putting? then 1 else 0 }

  /** Producers that have put a message and not yet announced it. */
  function OwesItem(p: Producer): int { if p.pc.UnlockP? || p.pc.PostItems? then 1 else 0 }

  /** Consumers that have taken an item and not yet its message. */
  function HoldsItem(p: Consumer): int { if p.pc.LockC? || p.pc.Getting? then 1 else 0 }

  /** Consumers that have taken a message and not yet given the place back. */
  function OwesSpace(p: Consumer): int { if p.pc.UnlockC? || p.pc.PostSpace? then 1 else 0 }

  /** Every place of the queue is free, about to be filled, filled, or about to be freed. */
  ghost predicate SpaceConserved(c: Config, s: State) {
    s.space + Sum(s.producers, HoldsSpace) + s.ring.amount + Sum(s.consumers, OwesSpace) == c.space
  }

  /** Every message in the queue is announced, about to be announced, or about to be taken. */
  ghost predicate ItemsConserved(s: State) {
    s.ring.amount == s.items + Sum(s.producers, OwesItem) + Sum(s.consumers, HoldsItem)
  }

  predicate InsideP(pc: ProdPc) { pc.Putting? || pc.UnlockP? }

  predicate InsideC(pc: ConsPc) { pc.Getting? || pc.UnlockC? }

  /** Exactly the owner of the mutex is between lock and unlock. */
  ghost predicate Exclusive(s: State) {
    && (forall i | 0 <= i < |s.producers| :: InsideP(s.producers[i].pc) <==> s.mutex == Some(ByProducer(i)))
    && (forall i | 0 <= i < |s.consumers| :: InsideC(s.consumers[i].pc) <==> s.mutex == Some(ByConsumer(i)))
    && (s.mutex.Some? ==>
          match s.mutex.value
          case ByProducer(i) => i < |s.producers|
          case ByConsumer(i) => i < |s.consumers|)
  }

  /** What was got is a prefix of what was put, number for number; the k-th number given out
      is k; and every message that was put carries its checksum. */
  ghost predicate Fifo(s: State) {
    && s.gets <= s.puts
    && Holds(s.ring, Bodies(s.puts), |s.gets|)
    && (forall k | 0 <= k < |s.puts| :: s.puts[k].0 == (k + 1) % WORD && Sound(s.puts[k].1))
  }

  predicate HasGot(pc: ConsPc) { pc.UnlockC? || pc.PostSpace? || pc.Checking? }

  /** A producer past produce_msg, and a consumer between get and check, hold a sound message. */
  ghost predicate SoundHands(s: State) {
    && (forall i | 0 <= i < |s.producers| :: !s.producers[i].pc.Making? ==> Sound(s.producers[i].msg))
    && (forall i | 0 <= i < |s.consumers| ::
         HasGot(s.consumers[i].pc) ==> Sound(s.consumers[i].msg))
    && s.complaints == 0
  }

  ghost predicate Inv(c: Config, s: State) {
    && SpaceConserved(c, s) && ItemsConserved(s) && Exclusive(s) && Fifo(s) && SoundHands(s)
    && s.ring.amount <= c.guard && s.exit != Underflow
    && |s.producers| < CHILD_MAX && |s.consumers| < CHILD_MAX
    && (s.main == JoiningProducer ==> s.producers != []) && (s.main == JoiningConsumer ==> s.consumers != [])
  }
}
