/** The process version of the queue: children killed by SIGKILL between any two assignments
    of put_msg and get_msg. The mutex is a semaphore that starts at 1; a child that is killed or
    exits while it holds it never posts it. A child that exits kills main on its way out, but not
    the other children. */
module KillQueue {
  import opened Base
  import opened Checksum
  import opened Messages
  import opened RingQueue

  datatype ProdPc =
    | Making | WaitSpace | WaitMutexP
    | TestFull | WrapHead | StoreSlot | IncHead | IncAmount | IncAdded
    | PostMutexP | PostItems | ReportP | GoneP

  datatype ConsPc =
    | WaitItems | WaitMutexC
    | TestEmpty | WrapTail | LoadSlot | IncTail | DecAmount | IncExtracted
    | PostMutexC | PostSpace | Checking | ReportC | GoneC

  datatype Producer = Producer(pc: ProdPc, msg: Msg)

  datatype Consumer = Consumer(pc: ConsPc, msg: Msg)

  /** Whether main is still there, and otherwise which exit of a child has killed it. */
  datatype Exit = Running | Overflow | Underflow

  datatype State = State(
    space: nat, items: nat, mutex: nat, ring: Ring,
    producers: seq<Producer>, consumers: seq<Consumer>, exit: Exit,
    puts: seq<(nat, Msg)>, gets: seq<(nat, Msg)>, complaints: nat)

  function Init(): State {
    State(MSG_MAX, 0, 1, Fresh(), [], [], Running, [], [], 0)
  }

  /** A producer's step carries what produce_msg draws; a fork carries the contents of the
      child's message. KillProducer and KillConsumer end the youngest child, wherever it is. */
  datatype Act =
    | Produce(i: nat, value: nat, data: seq<int>)
    | Consume(i: nat)
    | ForkProducer(m: Msg)
    | ForkConsumer(m: Msg)
    | KillProducer
    | KillConsumer

  predicate Enabled(s: State, a: Act) {
    match a
    case Produce(i, _, _) =>
      i < |s.producers| &&
      (match s.producers[i].pc
       case WaitSpace => s.space > 0
       case WaitMutexP => s.mutex > 0
       case GoneP => false
       case _ => true)
    case Consume(i) =>
      i < |s.consumers| &&
      (match s.consumers[i].pc
       case WaitItems => s.items > 0
       case WaitMutexC => s.mutex > 0
       case GoneC => false
       case _ => true)
    case ForkProducer(_) => s.exit == Running && |s.producers| < CHILD_MAX - 1
    case ForkConsumer(_) => s.exit == Running && |s.consumers| < CHILD_MAX - 1
    case KillProducer => s.exit == Running && s.producers != []
    case KillConsumer => s.exit == Running && s.consumers != []
  }

  function Next(s: State, a: Act): State
    requires Enabled(s, a)
  {
    match a
    case Produce(i, value, data) => ProducerStep(s, i, value, data)
    case Consume(i) => ConsumerStep(s, i)
    case ForkProducer(m) => s.(producers := s.producers + [Producer(Making, m)])
    case ForkConsumer(m) => s.(consumers := s.consumers + [Consumer(WaitItems, m)])
    case KillProducer => s.(producers := s.producers[..|s.producers| - 1])
    case KillConsumer => s.(consumers := s.consumers[..|s.consumers| - 1])
  }

  function GotoP(s: State, i: nat, pc: ProdPc): State
    requires i < |s.producers|
  {
    s.(producers := s.producers[i := s.producers[i].(pc := pc)])
  }

  function GotoC(s: State, i: nat, pc: ConsPc): State
    requires i < |s.consumers|
  {
    s.(consumers := s.consumers[i := s.consumers[i].(pc := pc)])
  }

  /** The assignment of put_msg that a producer at p.pc makes. */
  function PutAssign(r: Ring, p: Producer): Ring {
    match p.pc
    case WrapHead => r.(head := Wrap(r.head))
    case StoreSlot => if r.head < |r.buffer| then r.(buffer := r.buffer[r.head := p.msg]) else r
    case IncHead => r.(head := r.head + 1)
    case IncAmount => r.(amount := r.amount + 1)
    case IncAdded => r.(added := Inc(r.added))
    case _ => r
  }

  function AfterP(pc: ProdPc): ProdPc {
    match pc
    case Making => WaitSpace
    case WaitSpace => WaitMutexP
    case WaitMutexP => TestFull
    case TestFull => WrapHead
    case WrapHead => StoreSlot
    case StoreSlot => IncHead
    case IncHead => IncAmount
    case IncAmount => IncAdded
    case IncAdded => PostMutexP
    case PostMutexP => PostItems
    case PostItems => ReportP
    case ReportP => Making
    case GoneP => GoneP
  }

  /** One assignment, test or call of a producer. */
  function ProducerStep(s: State, i: nat, value: nat, data: seq<int>): (t: State)
    requires Enabled(s, Produce(i, value, data))
    ensures |t.producers| == |s.producers| && t.consumers == s.consumers
  {
    var p, r := s.producers[i], PutAssign(s.ring, s.producers[i]);
    var t := GotoP(s, i, AfterP(p.pc)).(ring := r);
    match p.pc
    case Making => s.(producers := s.producers[i := Producer(WaitSpace, Produced(p.msg, value, data))])
    case WaitSpace => t.(space := s.space - 1)
    case WaitMutexP => t.(mutex := s.mutex - 1)
    case TestFull => if s.ring.amount == MSG_MAX - 1 then GotoP(s, i, GoneP).(exit := Overflow) else t
    case IncAdded => t.(puts := s.puts + [(r.added, p.msg)])
    case PostMutexP => t.(mutex := s.mutex + 1)
    case PostItems => t.(items := s.items + 1)
    case _ => t
  }

  /** The assignment of get_msg that a consumer at p.pc makes; its own copy of the message is
      taken at LoadSlot. An unsigned decrement of 0 wraps. */
  function GetAssign(r: Ring, p: Consumer): Ring {
    match p.pc
    case WrapTail => r.(tail := Wrap(r.tail))
    case IncTail => r.(tail := r.tail + 1)
    case DecAmount => r.(amount := if r.amount > 0 then r.amount - 1 else WORD - 1)
    case IncExtracted => r.(extracted := Inc(r.extracted))
    case _ => r
  }

  function AfterC(pc: ConsPc): ConsPc {
    match pc
    case WaitItems => WaitMutexC
    case WaitMutexC => TestEmpty
    case TestEmpty => WrapTail
    case WrapTail => LoadSlot
    case LoadSlot => IncTail
    case IncTail => DecAmount
    case DecAmount => IncExtracted
    case IncExtracted => PostMutexC
    case PostMutexC => PostSpace
    case PostSpace => Checking
    case Checking => ReportC
    case ReportC => WaitItems
    case GoneC => GoneC
  }

  /** One assignment, test or call of a consumer. */
  function ConsumerStep(s: State, i: nat): (t: State)
    requires Enabled(s, Consume(i))
    ensures |t.consumers| == |s.consumers| && t.producers == s.producers
  {
    var p, r := s.consumers[i], GetAssign(s.ring, s.consumers[i]);
    var t := GotoC(s, i, AfterC(p.pc)).(ring := r);
    match p.pc
    case WaitItems => t.(items := s.items - 1)
    case WaitMutexC => t.(mutex := s.mutex - 1)
    case TestEmpty => if r.amount == 0 then GotoC(s, i, GoneC).(exit := Underflow) else t
    case LoadSlot =>
      s.(consumers := s.consumers[i := Consumer(IncTail, if r.tail < |r.buffer| then r.buffer[r.tail] else p.msg)])
    case IncExtracted => t.(gets := s.gets + [(r.extracted, p.msg)])
    case PostMutexC => t.(mutex := s.mutex + 1)
    case PostSpace => t.(space := s.space + 1)
    case Checking => t.(complaints := s.complaints + (if Sound(p.msg) then 0 else 1))
    case _ => t
  }

  predicate Legal(s: State, acts: seq<Act>)
    decreases |acts|
  {
    acts == [] || (Enabled(s, acts[0]) && Legal(Next(s, acts[0]), acts[1..]))
  }

  function Run(s: State, acts: seq<Act>): State
    requires Legal(s, acts)
    decreases |acts|
  {
    if acts == [] then s else Run(Next(s, acts[0]), acts[1..])
  }

  ghost predicate Reachable(s: State) {
    exists acts :: Legal(Init(), acts) && s == Run(Init(), acts)
  }

  // ------------------------------------------------------------ the invariant

  /** The process holds the mutex. */
  predicate InsideP(pc: ProdPc) {
    pc.TestFull? || pc.WrapHead? || pc.StoreSlot? || pc.IncHead? || pc.IncAmount? || pc.IncAdded? || pc.PostMutexP?
  }

  predicate InsideC(pc: ConsPc) {
    pc.TestEmpty? || pc.WrapTail? || pc.LoadSlot? || pc.IncTail? || pc.DecAmount? || pc.IncExtracted? || pc.PostMutexC?
  }

  function HoldsMutexP(p: Producer): int { if InsideP(p.pc) then 1 else 0 }

  function HoldsMutexC(p: Consumer): int { if InsideC(p.pc) then 1 else 0 }

  /** A free place has been taken and is not yet counted as filled. */
  function HoldsSpace(p: Producer): int {
    if p.pc.WaitMutexP? || (InsideP(p.pc) && !p.pc.IncAdded? && !p.pc.PostMutexP?) then 1 else 0
  }

  /** A message is counted and not yet announced. */
  function OwesItem(p: Producer): int {
    if p.pc.IncAdded? || p.pc.PostMutexP? || p.pc.PostItems? then 1 else 0
  }

  /** An item has been taken and its message is still counted. */
  function HoldsItem(p: Consumer): int {
    if p.pc.WaitMutexC? || (InsideC(p.pc) && !p.pc.IncExtracted? && !p.pc.PostMutexC?) then 1 else 0
  }

  /** A message is no longer counted and its place not yet given back. */
  function OwesSpace(p: Consumer): int {
    if p.pc.IncExtracted? || p.pc.PostMutexC? || p.pc.PostSpace? then 1 else 0
  }

  /** Killed children take what they hold with them, so places and items can only be lost:
      equations of the threaded version become inequalities. */
  ghost predicate SpaceBounded(s: State) {
    s.space + Sum(s.producers, HoldsSpace) + s.ring.amount + Sum(s.consumers, OwesSpace) <= MSG_MAX
  }

  ghost predicate ItemsBounded(s: State) {
    s.items + Sum(s.producers, OwesItem) + Sum(s.consumers, HoldsItem) <= s.ring.amount
  }

  /** At most one live process is inside, and none while the mutex is free. */
  ghost predicate Exclusive(s: State) {
    s.mutex + Sum(s.producers, HoldsMutexP) + Sum(s.consumers, HoldsMutexC) <= 1
  }

  /** The ring holds what has been put and not yet got. */
  ghost predicate Whole(puts: seq<(nat, Msg)>, got: nat, r: Ring) {
    got <= |puts| && Holds(r, Bodies(puts), got)
  }

  /** The ring as a live producer inside put_msg finds it: whole but for the assignments
      made so far. */
  ghost predicate HalfPut(puts: seq<(nat, Msg)>, got: nat, r: Ring, p: Producer) {
    match p.pc
    case WrapHead => Whole(puts, got, r) && r.amount < MSG_MAX - 1
    case StoreSlot => Whole(puts, got, r) && r.head < MSG_MAX && r.amount < MSG_MAX - 1
    case IncHead =>
      Whole(puts, got, r) && r.head < MSG_MAX && r.amount < MSG_MAX - 1 && r.buffer[r.head] == p.msg
    case IncAmount =>
      && 0 < r.head <= MSG_MAX && r.amount < MSG_MAX - 1
      && Whole(puts, got, r.(head := r.head - 1)) && r.buffer[r.head - 1] == p.msg
    case IncAdded =>
      && 0 < r.head <= MSG_MAX && 0 < r.amount < MSG_MAX
      && Whole(puts, got, r.(head := r.head - 1, amount := r.amount - 1)) && r.buffer[r.head - 1] == p.msg
    case _ => Whole(puts, got, r)
  }

  ghost predicate HalfGet(puts: seq<(nat, Msg)>, got: nat, r: Ring, p: Consumer) {
    match p.pc
    case WrapTail => Whole(puts, got, r) && r.amount > 0
    case LoadSlot => Whole(puts, got, r) && r.amount > 0 && r.tail < MSG_MAX
    case IncTail => Whole(puts, got, r) && r.amount > 0 && r.tail < MSG_MAX && p.msg == r.buffer[r.tail]
    case DecAmount =>
      && 0 < r.tail <= MSG_MAX && r.amount > 0
      && Whole(puts, got, r.(tail := r.tail - 1)) && p.msg == r.buffer[r.tail - 1]
    case IncExtracted =>
      && 0 < r.tail <= MSG_MAX
      && Whole(puts, got, r.(tail := r.tail - 1, amount := r.amount + 1)) && p.msg == r.buffer[r.tail - 1]
    case _ => Whole(puts, got, r)
  }

  /** The ring is whole while the mutex is free, and accounted for while a live process holds
      the mutex. If the holder is gone nothing is said of the ring: nobody looks at it. */
  ghost predicate RingOk(s: State) {
    && (s.mutex > 0 ==> Whole(s.puts, |s.gets|, s.ring))
    && (forall i | 0 <= i < |s.producers| && InsideP(s.producers[i].pc) ::
         HalfPut(s.puts, |s.gets|, s.ring, s.producers[i]))
    && (forall i | 0 <= i < |s.consumers| && InsideC(s.consumers[i].pc) ::
         HalfGet(s.puts, |s.gets|, s.ring, s.consumers[i]))
  }

  ghost predicate LogsOk(s: State) {
    && s.gets <= s.puts
    && (forall k | 0 <= k < |s.puts| :: s.puts[k].0 == (k + 1) % WORD && Sound(s.puts[k].1))
  }

  predicate HasGot(pc: ConsPc) { pc.PostMutexC? || pc.PostSpace? || pc.Checking? }

  ghost predicate SoundHands(s: State) {
    && (forall i | 0 <= i < |s.producers| :: !s.producers[i].pc.Making? ==> Sound(s.producers[i].msg))
    && (forall i | 0 <= i < |s.consumers| :: HasGot(s.consumers[i].pc) ==> Sound(s.consumers[i].msg))
    && s.complaints == 0
  }

  ghost predicate Inv(s: State) {
    && SpaceBounded(s) && ItemsBounded(s) && Exclusive(s) && RingOk(s) && LogsOk(s) && SoundHands(s)
    && s.exit != Underflow
  }
}
