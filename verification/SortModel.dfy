/** The threads of sort_index as a step system. Participant 0 is main, participants
    1..amount are the workers; all meet at one barrier for amount + 1 threads. A step of a
    participant is one access to shared data (or one critical-section action), so any two
    participants interleave between the stores of a merge as well. */
module SortModel {
  import opened Base
  import opened Runs
  import opened Blocks
  import opened Windows

  const MIN_THREADS := 8
  const MAX_THREADS := 8192

  /** One entry of the claim map. */
  datatype Entry = Entry(isBusy: bool, block: int)

  /** The arguments of createThreads, with blocks == 2^order; what qsort makes of a block;
      and the word that lies just past the claim map, which the first merge round reads. */
  datatype Config = Config(amount: nat, memsize: nat, order: nat, qsort: seq<Rec> -> seq<Rec>, over: Entry)
  {
    function Blocks(): nat { Pow2(order) }
    function Threads(): nat { amount + 1 }
    /** memsize / runs, the length of the runs merge(memsize, runs, no) works on. */
    function RunLen(runs: nat): nat { Quot(memsize, runs) }
    function BlockLen(): nat { RunLen(Blocks()) }
  }

  ghost predicate SortsBlocks(q: seq<Rec> -> seq<Rec>) {
    forall s :: Sorted(q(s)) && multiset(q(s)) == multiset(s)
  }

  /** What main has checked before it creates the threads, together with the assumptions
      that the blocks tile the window and that qsort sorts. */
  ghost predicate Valid(c: Config) {
    && MIN_THREADS <= c.amount <= MAX_THREADS && c.amount < c.Blocks()
    && c.memsize > 0 && c.memsize % c.Blocks() == 0
    && SortsBlocks(c.qsort)
  }

  /** Where in the program a participant waits at the barrier. */
  datatype Meeting = Start | BlocksSorted | RoundOpen | RoundGo | RoundEnd | ChunkEnd | Exit

  /** Where a merge returns to: the claim loop at index i, or main's last merge. */
  datatype Caller = ClaimLoop(i: nat) | LastMerge

  datatype Pc =
    | LoopTest
    | InitMap
    | Wait(at: Meeting)
    | MarkOwn
    | SortOwn
    | ScanTest(i: nat)
    | ScanLock(i: nat)
    | ScanRecheck(i: nat)
    | ScanSet(i: nat)
    | ScanUnlock(i: nat, mine: bool)
    | ScanSort(i: nat)
    | InitMergeLock
    | MergeTest
    | Halve
    | ClaimTest(i: nat)
    | ClaimLock(i: nat)
    | ClaimCheck(i: nat)
    | ClaimSet(i: nat)
    | ClaimUnlock(i: nat, sav: int)
    | Copy(sav: int, runs: nat, back: Caller)
    | Store(no: nat, runs: nat, back: Caller, left: seq<Rec>, right: seq<Rec>, x: nat, y: nat)
    | Advance
    | Reset
    | Done
    | Wild

  /** History kept only to state properties; no step depends on it. `claimer` and `sorts`:
      who claimed each block and how often it was sorted in this chunk. `base`, `merger` and
      `merges`: the window when the merge round began, who claimed each index and how often
      it was merged. `rounds`: rounds begun in this chunk. */
  datatype Log = Log(
    claimer: seq<Option<nat>>, sorts: seq<nat>,
    base: seq<Rec>, merger: seq<Option<nat>>, merges: seq<nat>, rounds: nat)

  /** The shared state. `file` is the record file cut into windows of memsize records, `done`
      the number of finished chunks, so curSize is done * memsize, and `at` the number of the
      window that is mapped; `runs` is BLOCKS. */
  datatype State = State(
    pcs: seq<Pc>, runs: nat, claims: seq<Entry>,
    sortLock: Option<nat>, mergeLock: Option<nat>,
    file: seq<seq<Rec>>, at: nat, done: nat, log: Log)
  {
    function Window(): seq<Rec>
      requires at < |file|
    {
      file[at]
    }
  }

  function Init(c: Config, file: seq<seq<Rec>>): State {
    State(seq(c.Threads(), _ => LoopTest), 2 * c.Blocks(), [], None, None, file, 0, 0,
          Log([], [], [], [], [], 0))
  }

  // ---------------------------------------------------------------- steps

  datatype Act = Move(p: nat) | Open

  /** A participant can act unless it waits, has left, or wants a lock that is held. */
  predicate CanMove(s: State, p: nat) {
    p < |s.pcs| &&
    match s.pcs[p]
    case Wait(_) => false
    case Done => false
    case Wild => false
    case ScanLock(_) => s.sortLock.None?
    case ClaimLock(_) => s.mergeLock.None?
    case _ => true
  }

  predicate Enabled(s: State, a: Act) {
    match a
    case Move(p) => CanMove(s, p)
    case Open => s.pcs != [] && forall p | 0 <= p < |s.pcs| :: s.pcs[p].Wait?
  }

  function AfterWait(m: Meeting): Pc {
    match m
    case Start => MarkOwn
    case BlocksSorted => MergeTest
    case RoundOpen => Halve
    case RoundGo => ClaimTest(0)
    case RoundEnd => MergeTest
    case ChunkEnd => LoopTest
    case Exit => Done
  }

  function Next(c: Config, s: State, a: Act): (t: State)
    requires Enabled(s, a)
    ensures |t.pcs| == |s.pcs|
  {
    match a
    case Open =>
      s.(pcs := seq(|s.pcs|, p requires 0 <= p < |s.pcs| =>
                               if s.pcs[p].Wait? then AfterWait(s.pcs[p].at) else s.pcs[p]))
    case Move(p) => StepOf(c, s, p)
  }

  function Goto(s: State, p: nat, pc: Pc): (t: State)
    requires p < |s.pcs|
    ensures |t.pcs| == |s.pcs|
  {
    s.(pcs := s.pcs[p := pc])
  }

  function SetBusy(m: seq<Entry>, i: nat): (r: seq<Entry>)
    ensures |r| == |m|
  {
    if i < |m| then m[i := m[i].(isBusy := true)] else m
  }

  predicate Busy(m: seq<Entry>, i: nat) {
    i < |m| && m[i].isBusy
  }

  function SetWindow(s: State, w: seq<Rec>): State {
    if s.at < |s.file| then s.(file := s.file[s.at := w]) else s
  }

  /** qsort of block i of the window, counted in the log. */
  function SortBlock(c: Config, s: State, i: nat): (t: State)
    ensures t.pcs == s.pcs
  {
    if s.at < |s.file| then
      var t := SetWindow(s, SetBlk(s.Window(), c.BlockLen(), i, c.qsort(Blk(s.Window(), c.BlockLen(), i))));
      t.(log := t.log.(sorts := if i < |t.log.sorts| then t.log.sorts[i := t.log.sorts[i] + 1] else t.log.sorts))
    else s
  }

  /** One step of participant p, by the phase of the program its pc belongs to. */
  function StepOf(c: Config, s: State, p: nat): (t: State)
    requires CanMove(s, p)
    ensures |t.pcs| == |s.pcs|
  {
    match s.pcs[p]
    case LoopTest => StepLoop(c, s, p)
    case InitMap => StepLoop(c, s, p)
    case MarkOwn => StepSort(c, s, p)
    case SortOwn => StepSort(c, s, p)
    case ScanTest(_) => StepSort(c, s, p)
    case ScanLock(_) => StepSort(c, s, p)
    case ScanRecheck(_) => StepSort(c, s, p)
    case ScanSet(_) => StepSort(c, s, p)
    case ScanUnlock(_, _) => StepSort(c, s, p)
    case ScanSort(_) => StepSort(c, s, p)
    case InitMergeLock => StepSort(c, s, p)
    case MergeTest => StepChunk(c, s, p)
    case Advance => StepChunk(c, s, p)
    case Reset => StepChunk(c, s, p)
    case Halve => StepHalve(c, s, p)
    case Copy(_, _, _) => StepMerge(c, s, p)
    case Store(_, _, _, _, _, _, _) => StepMerge(c, s, p)
    case _ => StepClaim(c, s, p)
  }

  /** The head of the outer loop, and the claim map main makes for each chunk. */
  function StepLoop(c: Config, s: State, p: nat): (t: State)
    requires p < |s.pcs|
    ensures |t.pcs| == |s.pcs|
  {
    if s.pcs[p] == InitMap then
      Goto(s, p, Wait(Start)).(
        claims := FreshMap(c), sortLock := None,
        log := s.log.(claimer := seq(c.Blocks(), _ => None), sorts := seq(c.Blocks(), _ => 0)))
    else
      Goto(s, p, if s.done < |s.file| then (if p == 0 then InitMap else Wait(Start)) else Wait(Exit))
  }

  function FreshMap(c: Config): seq<Entry> {
    seq(c.Blocks(), i => Entry(i < c.amount, i)) + [c.over]
  }

  /** sortPhase: the participant's own block without asking, then every block from there on
      that nobody has claimed. The first look at the map is taken without the lock. */
  function StepSort(c: Config, s: State, p: nat): (t: State)
    requires p < |s.pcs|
    ensures |t.pcs| == |s.pcs|
  {
    match s.pcs[p]
    case MarkOwn => Goto(s, p, SortOwn).(claims := SetBusy(s.claims, p))
    case SortOwn => SortBlock(c, Goto(s, p, ScanTest(p)), p)
    case ScanTest(i) =>
      Goto(s, p, if i >= c.Blocks() then (if p == 0 then InitMergeLock else Wait(BlocksSorted))
                 else if Busy(s.claims, i) then ScanTest(i + 1)
                 else ScanLock(i))
    case ScanLock(i) => Goto(s, p, ScanRecheck(i)).(sortLock := Some(p))
    case ScanRecheck(i) => Goto(s, p, if Busy(s.claims, i) then ScanUnlock(i, false) else ScanSet(i))
    case ScanSet(i) =>
      Goto(s, p, ScanUnlock(i, true)).(
        claims := SetBusy(s.claims, i),
        log := s.log.(claimer := if i < |s.log.claimer| then s.log.claimer[i := Some(p)] else s.log.claimer))
    case ScanUnlock(i, mine) =>
      Goto(s, p, if mine then ScanSort(i) else ScanTest(i + 1)).(sortLock := None)
    case ScanSort(i) => SortBlock(c, Goto(s, p, ScanTest(i + 1)), i)
    case InitMergeLock => Goto(s, p, Wait(BlocksSorted)).(mergeLock := None)
    case _ => s
  }

  /** The window of a file of n windows that openFile maps when j chunks have been done: the
      one whose first byte is the offset it passes, if there is one. */
  function MappedWindow(c: Config, j: nat, n: nat): Option<nat> {
    var off, len := MapOffset(j * c.memsize), c.memsize * RECORD;
    if len > 0 && off >= 0 && off % len == 0 && off / len < n then Some(off / len) else None
  }

  /** curSize += memsize, and the next mapping if a chunk is left. An offset that mmap refuses,
      or at which no window starts, leads astray. */
  function StepAdvance(c: Config, s: State, p: nat): (t: State)
    requires p < |s.pcs|
    ensures |t.pcs| == |s.pcs|
  {
    var j := s.done + 1;
    if j >= |s.file| then Goto(s, p, Reset).(done := j, at := j)
    else
      match MappedWindow(c, j, |s.file|)
      case Some(k) => Goto(s, p, Reset).(done := j, at := k)
      case None => Goto(s, p, Wild).(done := j)
  }

  /** Between the rounds, and main's way from the last round to the next chunk. */
  function StepChunk(c: Config, s: State, p: nat): (t: State)
    requires p < |s.pcs|
    ensures |t.pcs| == |s.pcs|
  {
    match s.pcs[p]
    case MergeTest =>
      Goto(s, p, if s.runs > 4 then Wait(RoundOpen)
                 else if p == 0 then Copy(0, 2, LastMerge) else Wait(ChunkEnd))
    case Advance => StepAdvance(c, s, p)
    case Reset => Goto(s, p, Wait(ChunkEnd)).(runs := 2 * c.Blocks(), log := s.log.(rounds := 0))
    case _ => s
  }

  function ClearMap(m: seq<Entry>, n: nat): (r: seq<Entry>)
    ensures |r| == |m|
  {
    seq(|m|, i requires 0 <= i < |m| => if i < n then m[i].(isBusy := false) else m[i])
  }

  /** Between the first two barriers of a round main halves BLOCKS and frees the map. */
  function StepHalve(c: Config, s: State, p: nat): (t: State)
    requires p < |s.pcs|
    ensures |t.pcs| == |s.pcs|
  {
    if p != 0 then Goto(s, p, Wait(RoundGo))
    else
      var half := s.runs / 2;
      Goto(s, p, Wait(RoundGo)).(
        runs := half, claims := ClearMap(s.claims, half),
        log := s.log.(base := if s.at < |s.file| then s.Window() else [],
                      merger := seq(half, _ => None), merges := seq(half, _ => 0),
                      rounds := s.log.rounds + 1))
  }

  /** The claim loop of a round: even indices, i <= BLOCKS included. */
  function StepClaim(c: Config, s: State, p: nat): (t: State)
    requires p < |s.pcs|
    ensures |t.pcs| == |s.pcs|
  {
    match s.pcs[p]
    case ClaimTest(i) => Goto(s, p, if i <= s.runs then ClaimLock(i) else Wait(RoundEnd))
    case ClaimLock(i) => Goto(s, p, ClaimCheck(i)).(mergeLock := Some(p))
    case ClaimCheck(i) => Goto(s, p, if Busy(s.claims, i) then ClaimUnlock(i, -1) else ClaimSet(i))
    case ClaimSet(i) =>
      Goto(s, p, ClaimUnlock(i, if i < |s.claims| then s.claims[i].block else -1)).(
        claims := SetBusy(s.claims, i),
        log := s.log.(merger := if i < |s.log.merger| then s.log.merger[i := Some(p)] else s.log.merger))
    case ClaimUnlock(i, sav) =>
      Goto(s, p, if sav != -1 then Copy(sav, s.runs, ClaimLoop(i)) else ClaimTest(i + 2)).(mergeLock := None)
    case _ => s
  }

  /** merge: both runs are copied out, then the window gets one record per step. A run
      outside the window is an access to foreign memory. */
  function StepMerge(c: Config, s: State, p: nat): (t: State)
    requires p < |s.pcs|
    ensures |t.pcs| == |s.pcs|
  {
    match s.pcs[p]
    case Copy(sav, runs, back) =>
      var n := c.RunLen(runs);
      if s.at < |s.file| && 0 <= sav && sav * n + 2 * n <= |s.Window()| then
        Goto(s, p, Store(sav, runs, back, Blk(s.Window(), n, sav), Blk(s.Window(), n, sav + 1), 0, 0))
      else Goto(s, p, Wild)
    case Store(no, runs, back, left, right, x, y) =>
      if s.at >= |s.file| then Goto(s, p, Wild)
      else if x < |left| && (y < |right| ==> left[x].mark < right[y].mark) then
        SetWindow(Goto(s, p, Store(no, runs, back, left, right, x + 1, y)),
                  Poke(s.Window(), c.RunLen(runs), no, x + y, left[x]))
      else if y < |right| then
        SetWindow(Goto(s, p, Store(no, runs, back, left, right, x, y + 1)),
                  Poke(s.Window(), c.RunLen(runs), no, x + y, right[y]))
      else Return(s, p, no, back)
    case _ => s
  }

  function Return(s: State, p: nat, no: nat, back: Caller): (t: State)
    requires p < |s.pcs|
    ensures |t.pcs| == |s.pcs|
  {
    match back
    case LastMerge => Goto(s, p, Advance)
    case ClaimLoop(i) =>
      Goto(s, p, ClaimTest(i + 2)).(
        log := s.log.(merges := if no < |s.log.merges| then s.log.merges[no := s.log.merges[no] + 1] else s.log.merges))
  }

  // ---------------------------------------------------------------- runs

  /** A schedule is legal if each of its acts is enabled when its turn comes. */
  predicate Legal(c: Config, s: State, acts: seq<Act>)
    decreases |acts|
  {
    acts == [] || (Enabled(s, acts[0]) && Legal(c, Next(c, s, acts[0]), acts[1..]))
  }

  function Run(c: Config, s: State, acts: seq<Act>): State
    requires Legal(c, s, acts)
    decreases |acts|
  {
    if acts == [] then s else Run(c, Next(c, s, acts[0]), acts[1..])
  }

  /** Main does not restore BLOCKS before every worker has left the test BLOCKS > 4. */
  predicate PromptAct(s: State, a: Act) {
    a == Move(0) && s.pcs != [] && s.pcs[0] == Reset ==> forall q | 0 < q < |s.pcs| :: s.pcs[q] != MergeTest
  }

  /** If the act is main's mapping of the next chunk, it maps the right window. */
  predicate MapsWell(c: Config, s: State, a: Act) {
    a == Move(0) && s.pcs != [] && s.pcs[0] == Advance && s.done + 1 < |s.file| ==>
      MappedWindow(c, s.done + 1, |s.file|) == Some(s.done + 1)
  }

  /** A schedule in which no restore of BLOCKS overtakes a worker. */
  predicate Prompt(c: Config, s: State, acts: seq<Act>)
    requires Legal(c, s, acts)
    decreases |acts|
  {
    acts == [] || (PromptAct(s, acts[0]) && Prompt(c, Next(c, s, acts[0]), acts[1..]))
  }

  predicate AllDone(s: State) {
    forall p | 0 <= p < |s.pcs| :: s.pcs[p] == Done
  }
}
