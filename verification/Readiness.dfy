/** The readiness cell of net/schedule_io.rs: a packed status word that the
    driver and any task change by compare-exchange without a lock, and a locked
    set of waiters.  One step is one atomic operation on the word or one use of
    the locked waiters; a poll that loads the word inside the lock takes two.
    The slab hands the cell out again once nobody uses it, which the driver may
    not notice before it dispatches a token of an earlier use. */
module Readiness {
  import opened Options
  import Runs

  // ----- readiness bits (net/ready.rs) -----

  datatype Flag = READABLE | WRITABLE | READ_CLOSED | WRITE_CLOSED

  type Ready = set<Flag>

  const ALL: Ready := {READABLE, WRITABLE, READ_CLOSED, WRITE_CLOSED}

  function Bit(b: bool, n: nat): nat { if b then n else 0 }

  function AsUsize(r: Ready): nat {
    Bit(READABLE in r, 1) + Bit(WRITABLE in r, 2) + Bit(READ_CLOSED in r, 4) + Bit(WRITE_CLOSED in r, 8)
  }

  function Single(b: bool, f: Flag): Ready { if b then {f} else {} }

  function FromUsize(n: nat): Ready {
    Single(n % 2 == 1, READABLE) + Single(n / 2 % 2 == 1, WRITABLE) +
    Single(n / 4 % 2 == 1, READ_CLOSED) + Single(n / 8 % 2 == 1, WRITE_CLOSED)
  }

  lemma ReadyRoundTrip(r: Ready)
    ensures AsUsize(r) < 16 && FromUsize(AsUsize(r)) == r
  {
    var n := AsUsize(r);
    assert n % 2 == Bit(READABLE in r, 1);
    assert n / 2 == Bit(WRITABLE in r, 1) + Bit(READ_CLOSED in r, 2) + Bit(WRITE_CLOSED in r, 4);
    assert n / 4 == Bit(READ_CLOSED in r, 1) + Bit(WRITE_CLOSED in r, 2);
    assert n / 8 == Bit(WRITE_CLOSED in r, 1);
    forall f: Flag
      ensures f in FromUsize(n) <==> f in r
    {
      match f
      case READABLE =>
      case WRITABLE =>
      case READ_CLOSED =>
      case WRITE_CLOSED =>
    }
  }

  datatype Interest = Reads | Writes | Both

  function FromInterest(i: Interest): Ready {
    match i
    case Reads => {READABLE, READ_CLOSED}
    case Writes => {WRITABLE, WRITE_CLOSED}
    case Both => ALL
  }

  /** `is_readable` and `is_writable`. */
  predicate Readable(r: Ready) { READABLE in r || READ_CLOSED in r }
  predicate Writable(r: Ready) { WRITABLE in r || WRITE_CLOSED in r }

  /** `satisfies`. */
  predicate Satisfies(r: Ready, i: Interest) {
    match i
    case Reads => Readable(r)
    case Writes => Writable(r)
    case Both => Readable(r) || Writable(r)
  }

  /** The bits of r that the interest is about; none exactly when r does not
      satisfy it. */
  function Intersection(r: Ready, i: Interest): (s: Ready)
    ensures s == {} <==> !Satisfies(r, i)
  {
    var s := r * FromInterest(i);
    assert forall f: Flag :: f in FromInterest(i) ==> f in {READABLE, READ_CLOSED, WRITABLE, WRITE_CLOSED};
    assert Satisfies(r, i) ==> READABLE in s || READ_CLOSED in s || WRITABLE in s || WRITE_CLOSED in s;
    s
  }

  // ----- the status word -----
  //   | generation, 7 bits from 24 | driver tick, 8 bits from 16 | readiness, 16 bits |

  /** What a status word says. */
  datatype Status = Status(generation: nat, tick: nat, ready: Ready) {
    predicate Fits() { generation < 0x80 && tick < 0x100 }
  }

  function Generation(word: nat): nat { word / 0x100_0000 % 0x80 }
  function TickOf(word: nat): nat { word / 0x1_0000 % 0x100 }

  /** `get_by_mask` on the three fields. */
  function Unpack(word: nat): Status {
    Status(Generation(word), TickOf(word), FromUsize(word % 0x1_0000))
  }

  /** `set_by_mask` on the two upper fields. */
  function SetTick(word: nat, tick: nat): nat {
    word - word / 0x1_0000 % 0x100 * 0x1_0000 + tick % 0x100 * 0x1_0000
  }

  function SetGeneration(word: nat, generation: nat): nat {
    word - word / 0x100_0000 % 0x80 * 0x100_0000 + generation % 0x80 * 0x100_0000
  }

  /** The word that says s. */
  function Pack(s: Status): nat {
    Packed(AsUsize(s.ready), s.tick, s.generation)
  }

  function Packed(low: nat, tick: nat, generation: nat): nat {
    low + tick * 0x1_0000 + generation * 0x100_0000
  }

  lemma PackedFields(low: nat, tick: nat, generation: nat)
    requires low < 0x1_0000 && tick < 0x100 && generation < 0x80
    ensures var word := low + tick * 0x1_0000 + generation * 0x100_0000;
      word % 0x1_0000 == low && word / 0x1_0000 % 0x100 == tick && word / 0x100_0000 % 0x80 == generation
  {
    var upper := tick + generation * 0x100;
    var word := low + upper * 0x1_0000;
    assert word / 0x1_0000 == upper;
    assert word / 0x100_0000 == upper / 0x100 == generation;
  }

  lemma SetTickFresh(low: nat, tick: nat)
    requires low < 0x1_0000 && tick < 0x100
    ensures SetTick(low, tick) == low + tick * 0x1_0000 < 0x100_0000
  {
    assert low / 0x1_0000 == 0;
    assert low / 0x1_0000 % 0x100 == 0;
    assert tick % 0x100 == tick;
  }

  lemma SetGenerationFresh(low: nat, generation: nat)
    requires low < 0x100_0000 && generation < 0x80
    ensures SetGeneration(low, generation) == low + generation * 0x100_0000
  {
    assert low / 0x100_0000 == 0;
    assert low / 0x100_0000 % 0x80 == 0;
    assert generation % 0x80 == generation;
  }

  /** The word as `set_readiness` builds it, field by field. */
  lemma BuiltByMasks(s: Status)
    requires s.Fits()
    ensures SetGeneration(SetTick(AsUsize(s.ready), s.tick), s.generation) == Pack(s)
  {
    assert AsUsize(s.ready) < 16;
    SetTickFresh(AsUsize(s.ready), s.tick);
    SetGenerationFresh(SetTick(AsUsize(s.ready), s.tick), s.generation);
  }

  lemma UnpackOf(low: nat, tick: nat, generation: nat)
    requires low < 0x1_0000 && tick < 0x100 && generation < 0x80
    ensures Unpack(Packed(low, tick, generation)) == Status(generation, tick, FromUsize(low))
  {
    PackedFields(low, tick, generation);
  }

  /** The fields of a word are what was put into it, so two words are equal
      exactly when their fields are: a compare-exchange on the word is one on
      the fields. */
  lemma StatusRoundTrip(s: Status)
    requires s.Fits()
    ensures Unpack(Pack(s)) == s
  {
    assert AsUsize(s.ready) < 16;
    UnpackOf(AsUsize(s.ready), s.tick, s.generation);
    assert FromUsize(AsUsize(s.ready)) == s.ready by {
      ReadyRoundTrip(s.ready);
    }
  }

  /** `reset`, when the slab entry is reused: nothing is ready and a token of
      the generation before no longer matches. */
  function Reset(s: Status): (r: Status)
    ensures r.Fits() && r.ready == {} && (s.Fits() ==> r.generation != s.generation)
  {
    Status((s.generation + 1) % 0x80, 0, {})
  }

  // ----- the protocol -----

  /** What a poll returned: the bits it saw and the tick it saw them at; `turn`
      is the driver turn that tick stands for, that of the dispatch observed, and
      `at` the one the poll was made in. */
  datatype ReadyEvent = ReadyEvent(tick: nat, ready: Ready, turn: nat, at: nat)

  /** The driver thread; dispatches are serialised.  A token carries the
      generation of the use of the cell it was registered for; `use` is that use. */
  datatype Driver =
    | Polling
    | Setting(generation: nat, use: nat, ready: Ready, current: Status)  // about to compare-exchange
    | Waking(ready: Ready)                                               // about to call wake0

  datatype Task =
    | Free
    | PollLoad(dir: Interest)       // poll_readiness, about to load the status
    | PollLock(dir: Interest)       // saw nothing, about to lock the waiters
    | PollCheck(dir: Interest)      // lock held, waker stored, about to load again
    | InitLoad(interest: Interest)  // poll_init, about to load the status
    | InitLock(interest: Interest)  // saw nothing, about to lock the waiters and load again
    | InitPush(interest: Interest)  // lock held, saw nothing again, about to enqueue
    | Waiting(interest: Interest)   // in the list, or taken off it by wake0
    | Done(interest: Interest)      // found itself ready, about to load the tick
    | Clearing(seen: ReadyEvent, current: Status)  // clear_readiness, about to compare-exchange

  /** A reader or writer slot: the task whose waker it holds, and whether the
      poll that left it there returned Pending. */
  datatype Slot = Empty | Holding(task: nat, pending: bool)

  /** `turn` counts the driver's turns, `setTurn` is the turn of the last
      dispatch to this cell, `lastSet` that of each flag, and `events` are the
      observations polls have returned in this use of the cell.  `uses` counts
      the earlier ones, the first of which had generation `first`. */
  datatype Cell = Cell(
    status: Status,
    driver: Driver,
    holder: Option<nat>,
    listed: set<nat>,
    notified: set<nat>,
    reader: Slot,
    writer: Slot,
    shutdown: bool,
    tasks: seq<Task>,
    turn: nat,
    setTurn: nat,
    lastSet: map<Flag, nat>,
    events: set<ReadyEvent>,
    first: nat,
    uses: nat)

  /** The generation of a use of the cell. */
  function Token(first: nat, use: nat): nat { (first + use) % 0x80 }

  datatype Event =
    | Turn                                        // drive: one more turn of the driver
    | Dispatch(use: nat, ready: Ready)            // under the token of that use
    | DriverGo
    | Shutdown
    | PollReadiness(t: nat, dir: Interest)
    | PollInit(t: nat, interest: Interest)
    | Clear(t: nat, seen: ReadyEvent)
    | Abandon(t: nat)                             // the Readiness future is dropped
    | TaskGo(t: nat)
    | Reuse(since: nat)                           // allocate: the slab hands the cell out again

  /** A cell is made at any turn of the driver; its tick of zero stands for an
      earlier turn with that tick. */
  ghost predicate Init(c: Cell) {
    && c.status == Status(c.status.generation, 0, {}) && c.status.Fits()
    && c.driver == Polling && c.holder == None
    && c.listed == {} && c.notified == {} && c.reader == Empty && c.writer == Empty && !c.shutdown
    && (forall t | 0 <= t < |c.tasks| :: c.tasks[t] == Free)
    && c.setTurn <= c.turn && c.setTurn % 0x100 == 0
    && c.lastSet == (map f | f in ALL :: 0)
    && c.events == {}
    && c.first == c.status.generation && c.uses == 0
  }

  /** Whether the next step of a task needs the waiters' lock. */
  predicate NeedsLock(task: Task) { task.PollLock? || task.InitLock? || task.Waiting? }

  predicate Enabled(c: Cell, e: Event) {
    match e
    case Turn => c.driver.Polling?
    case Dispatch(use, _) => c.driver.Polling? && use <= c.uses && c.setTurn < c.turn  // one event a turn
    case DriverGo => c.driver.Setting? || (c.driver.Waking? && c.holder.None?)
    case Shutdown => c.holder.None?
    case PollReadiness(t, dir) => t < |c.tasks| && c.tasks[t].Free? && !dir.Both?
    case PollInit(t, _) => t < |c.tasks| && c.tasks[t].Free?
    case Clear(t, seen) => t < |c.tasks| && c.tasks[t].Free? && seen in c.events
    case Abandon(t) => t < |c.tasks| && c.tasks[t].Waiting? && c.holder.None?
    case TaskGo(t) =>
      && t < |c.tasks| && !c.tasks[t].Free?
      && (NeedsLock(c.tasks[t]) ==> c.holder.None?)
      && (c.tasks[t].PollCheck? || c.tasks[t].InitPush? ==> c.holder == Some(t))
    case Reuse(since) =>
      && (forall t | 0 <= t < |c.tasks| :: c.tasks[t].Free?)
      && since <= c.turn && since % 0x100 == 0
  }

  function Put(c: Cell, t: nat, task: Task): Cell
    requires t < |c.tasks|
  {
    c.(tasks := c.tasks[t := task])
  }

  /** A poll returns what it saw. */
  function Observe(c: Cell, t: nat, ready: Ready): Cell
    requires t < |c.tasks|
  {
    Put(c.(events := c.events + {ReadyEvent(c.status.tick, ready, c.setTurn, c.turn)}), t, Free)
  }

  /** The waker of t in the slot of a direction; an entry that is still marked
      not pending may be a poll on its way to return Ready. */
  function Registered(c: Cell, t: nat, dir: Interest, pending: bool): Cell {
    if dir.Writes? then c.(writer := Holding(t, pending)) else c.(reader := Holding(t, pending))
  }

  /** The tasks of the list that `wake0` takes off. */
  ghost function Matching(c: Cell, ready: Ready): set<nat> {
    set t | t in c.listed && t < |c.tasks| && c.tasks[t].Waiting? && Satisfies(ready, c.tasks[t].interest)
  }

  function Released(slot: Slot, ready: Ready, dir: Interest): Slot {
    if Satisfies(ready, dir) then Empty else slot
  }

  /** `wake0`, under the lock. */
  ghost function Wake0(c: Cell, ready: Ready, shutdown: bool): Cell {
    c.(shutdown := c.shutdown || shutdown,
       listed := c.listed - Matching(c, ready),
       notified := c.notified + Matching(c, ready),
       reader := Released(c.reader, ready, Reads),
       writer := Released(c.writer, ready, Writes))
  }

  /** `dispatch`: `set_readiness` outside the lock, then `wake`. */
  ghost function DriverStep(c: Cell): Cell
    requires Enabled(c, DriverGo)
  {
    match c.driver
    case Setting(generation, use, ready, current) =>
      if current.generation != generation then c.(driver := Polling)
      else if c.status == current
      then c.(status := Status(current.generation, c.turn % 0x100, current.ready + ready),
              setTurn := c.turn,
              lastSet := map f | f in c.lastSet :: if f in ready then c.turn else c.lastSet[f],
              driver := Waking(ready))
      else c.(driver := Setting(generation, use, ready, c.status))
    case Waking(ready) => Wake0(c, ready, false).(driver := Polling)
  }

  predicate Closed(f: Flag) { f.READ_CLOSED? || f.WRITE_CLOSED? }

  function Unclosed(ready: Ready): Ready { ready - {READ_CLOSED, WRITE_CLOSED} }

  function TaskStep(c: Cell, t: nat): Cell
    requires Enabled(c, TaskGo(t))
  {
    match c.tasks[t]
    case PollLoad(dir) =>
      if !Satisfies(c.status.ready, dir) then Put(c, t, PollLock(dir))
      else Observe(c, t, Intersection(c.status.ready, dir))
    case PollLock(dir) =>
      Put(Registered(c, t, dir, false).(holder := Some(t)), t, PollCheck(dir))
    case PollCheck(dir) =>
      if !c.shutdown && !Satisfies(c.status.ready, dir) then Put(Registered(c, t, dir, true).(holder := None), t, Free)
      else Observe(c.(holder := None), t, Intersection(c.status.ready, dir))
    case InitLoad(interest) =>
      if !Satisfies(c.status.ready, interest) then Put(c, t, InitLock(interest))
      else Observe(c, t, Intersection(c.status.ready, interest))
    case InitLock(interest) =>
      var readiness := if c.shutdown then ALL else c.status.ready;
      if !Satisfies(readiness, interest) then Put(c.(holder := Some(t)), t, InitPush(interest))
      else Observe(c, t, Intersection(readiness, interest))
    case InitPush(interest) =>
      Put(c.(holder := None, listed := c.listed + {t}), t, Waiting(interest))
    case Waiting(interest) =>
      if t in c.notified then Put(c.(notified := c.notified - {t}), t, Done(interest)) else c
    case Done(interest) => Observe(c, t, FromInterest(interest))
    case Clearing(seen, current) =>
      if current.tick != seen.tick then Put(c, t, Free)
      else if c.status == current
      then Put(c.(status := current.(ready := current.ready - Unclosed(seen.ready))), t, Free)
      else Put(c, t, Clearing(seen, c.status))
  }

  ghost function Step(c: Cell, e: Event): Cell
    requires Enabled(c, e)
  {
    match e
    case Turn => c.(turn := c.turn + 1)
    case Dispatch(use, ready) => c.(driver := Setting(Token(c.first, use), use, ready, c.status))
    case DriverGo => DriverStep(c)
    case Shutdown => Wake0(c, ALL, true)
    case PollReadiness(t, dir) => Put(c, t, PollLoad(dir))
    case PollInit(t, interest) => Put(c, t, InitLoad(interest))
    case Clear(t, seen) => Put(c, t, Clearing(seen, c.status))
    case Abandon(t) => Put(c.(listed := c.listed - {t}, notified := c.notified - {t}), t, Free)
    case TaskGo(t) => TaskStep(c, t)
    case Reuse(since) => Renewed(c, since)
  }

  /** The cell in its next use: the word is reset whatever the driver is doing,
      and like that of a new cell its tick of zero stands for an earlier turn. */
  function Renewed(c: Cell, since: nat): Cell {
    c.(status := Reset(c.status),
       setTurn := since,
       lastSet := map f | f in ALL :: 0,
       events := {},
       uses := c.uses + 1)
  }

  ghost predicate Next(c: Cell, c': Cell) {
    exists e :: Enabled(c, e) && c' == Step(c, e)
  }

  // ----- the invariant -----

  /** If the status already shows what the interest waits for, the driver is
      about to wake it. */
  ghost predicate Covered(status: Status, driver: Driver, interest: Interest) {
    Satisfies(status.ready, interest) ==> driver.Waking? && Satisfies(driver.ready, interest)
  }

  /** A task about to enqueue holds the lock and is covered, one in the list is
      covered, and a waiting task is in the list or has been taken off it. */
  ghost predicate TaskCovered(task: Task, status: Status, driver: Driver, shutdown: bool,
                              holds: bool, listed: bool, notified: bool) {
    && (task.InitPush? ==> Covered(status, driver, task.interest) && !shutdown)
    && (task.InitPush? || task.PollCheck? <==> holds)
    && (listed ==> task.Waiting? && Covered(status, driver, task.interest) && !shutdown)
    && (notified ==> task.Waiting? && !listed)
    && (task.Waiting? ==> listed || notified)
    && (task.PollLoad? || task.PollLock? || task.PollCheck? ==> !task.dir.Both?)
  }

  ghost predicate TasksCovered(c: Cell) {
    && (c.holder.Some? ==> c.holder.value < |c.tasks|)
    && forall t | 0 <= t < |c.tasks| ::
         TaskCovered(c.tasks[t], c.status, c.driver, c.shutdown, c.holder == Some(t), t in c.listed, t in c.notified)
  }

  ghost predicate SlotCovered(slot: Slot, dir: Interest, status: Status, driver: Driver, shutdown: bool) {
    slot.Holding? && slot.pending ==> Covered(status, driver, dir) && !shutdown
  }

  ghost predicate SlotsCovered(c: Cell) {
    && SlotCovered(c.reader, Reads, c.status, c.driver, c.shutdown)
    && SlotCovered(c.writer, Writes, c.status, c.driver, c.shutdown)
  }

  ghost predicate EventFits(ev: ReadyEvent, setTurn: nat) {
    ev.turn <= setTurn && ev.turn <= ev.at && ev.tick == ev.turn % 0x100
  }

  /** The tick stands for the turn of the last dispatch. */
  ghost predicate TurnsFit(c: Cell) {
    && c.status.Fits() && c.status.tick == c.setTurn % 0x100 && c.setTurn <= c.turn
    && c.lastSet.Keys == ALL && (forall f | f in ALL :: c.lastSet[f] <= c.setTurn)
  }

  /** The word carries the generation of the present use, and the driver's token
      that of a use so far. */
  ghost predicate TokensFit(c: Cell) {
    && c.status.generation == Token(c.first, c.uses)
    && (c.driver.Setting? ==> c.driver.use <= c.uses && c.driver.generation == Token(c.first, c.driver.use))
  }

  ghost predicate EventsFit(events: set<ReadyEvent>, tasks: seq<Task>, setTurn: nat) {
    && (forall ev | ev in events :: EventFits(ev, setTurn))
    && (forall t | 0 <= t < |tasks| && tasks[t].Clearing? :: EventFits(tasks[t].seen, setTurn))
  }

  ghost predicate Inv(c: Cell) {
    TasksCovered(c) && SlotsCovered(c) && TurnsFit(c) && TokensFit(c) && EventsFit(c.events, c.tasks, c.setTurn)
  }

  lemma SettingKeepsInv(c: Cell)
    requires Inv(c) && c.driver.Setting?
    ensures Inv(DriverStep(c))
  {
  }

  lemma WakingKeepsInv(c: Cell)
    requires Inv(c) && c.driver.Waking? && c.holder.None?
    ensures Inv(DriverStep(c))
  {
  }

  lemma ShutdownKeepsInv(c: Cell)
    requires Inv(c) && Enabled(c, Shutdown)
    ensures Inv(Step(c, Shutdown))
  {
  }

  lemma PollLoadKeepsInv(c: Cell, t: nat)
    requires Inv(c) && Enabled(c, TaskGo(t)) && c.tasks[t].PollLoad?
    ensures Inv(TaskStep(c, t))
  {
  }

  lemma PollLockKeepsInv(c: Cell, t: nat)
    requires Inv(c) && Enabled(c, TaskGo(t)) && c.tasks[t].PollLock?
    ensures Inv(TaskStep(c, t))
  {
  }

  lemma PollCheckKeepsInv(c: Cell, t: nat)
    requires Inv(c) && Enabled(c, TaskGo(t)) && c.tasks[t].PollCheck?
    ensures Inv(TaskStep(c, t))
  {
  }

  lemma InitLoadKeepsInv(c: Cell, t: nat)
    requires Inv(c) && Enabled(c, TaskGo(t)) && c.tasks[t].InitLoad?
    ensures Inv(TaskStep(c, t))
  {
  }

  lemma InitLockKeepsInv(c: Cell, t: nat)
    requires Inv(c) && Enabled(c, TaskGo(t)) && c.tasks[t].InitLock?
    ensures Inv(TaskStep(c, t))
  {
  }

  lemma InitPushKeepsInv(c: Cell, t: nat)
    requires Inv(c) && Enabled(c, TaskGo(t)) && c.tasks[t].InitPush?
    ensures Inv(TaskStep(c, t))
  {
  }

  lemma WaitingKeepsInv(c: Cell, t: nat)
    requires Inv(c) && Enabled(c, TaskGo(t)) && (c.tasks[t].Waiting? || c.tasks[t].Done?)
    ensures Inv(TaskStep(c, t))
  {
  }

  lemma ClearingKeepsCovered(c: Cell, t: nat)
    requires TasksCovered(c) && SlotsCovered(c) && Enabled(c, TaskGo(t)) && c.tasks[t].Clearing?
    ensures TasksCovered(TaskStep(c, t)) && SlotsCovered(TaskStep(c, t))
  {
  }

  lemma ClearingKeepsFit(c: Cell, t: nat)
    requires TurnsFit(c) && TokensFit(c) && EventsFit(c.events, c.tasks, c.setTurn)
    requires Enabled(c, TaskGo(t)) && c.tasks[t].Clearing?
    ensures var c' := TaskStep(c, t); TurnsFit(c') && TokensFit(c') && EventsFit(c'.events, c'.tasks, c'.setTurn)
  {
  }

  lemma ClearingKeepsInv(c: Cell, t: nat)
    requires Inv(c) && Enabled(c, TaskGo(t)) && c.tasks[t].Clearing?
    ensures Inv(TaskStep(c, t))
  {
    ClearingKeepsCovered(c, t);
    ClearingKeepsFit(c, t);
  }

  lemma CallKeepsInv(c: Cell, e: Event)
    requires Inv(c) && Enabled(c, e) && !e.DriverGo? && !e.Shutdown? && !e.TaskGo? && !e.Reuse?
    ensures Inv(Step(c, e))
  {
  }

  lemma NextToken(first: nat, use: nat)
    ensures (Token(first, use) + 1) % 0x80 == Token(first, use + 1)
  {
  }

  lemma ReuseKeepsInv(c: Cell, since: nat)
    requires Inv(c) && Enabled(c, Reuse(since))
    ensures Inv(Renewed(c, since))
  {
    NextToken(c.first, c.uses);
  }

  lemma TaskKeepsInv(c: Cell, t: nat)
    requires Inv(c) && Enabled(c, TaskGo(t))
    ensures Inv(Step(c, TaskGo(t)))
  {
    assert Step(c, TaskGo(t)) == TaskStep(c, t);
    match c.tasks[t]
    case PollLoad(_) => PollLoadKeepsInv(c, t);
    case PollLock(_) => PollLockKeepsInv(c, t);
    case PollCheck(_) => PollCheckKeepsInv(c, t);
    case InitLoad(_) => InitLoadKeepsInv(c, t);
    case InitLock(_) => InitLockKeepsInv(c, t);
    case InitPush(_) => InitPushKeepsInv(c, t);
    case Clearing(_, _) => ClearingKeepsInv(c, t);
    case Waiting(_) => WaitingKeepsInv(c, t);
    case Done(_) => WaitingKeepsInv(c, t);
  }

  lemma StepKeepsInv(c: Cell, e: Event)
    requires Inv(c) && Enabled(c, e)
    ensures Inv(Step(c, e))
  {
    if e.TaskGo? {
      TaskKeepsInv(c, e.t);
    } else if e.DriverGo? {
      if c.driver.Setting? {
        SettingKeepsInv(c);
      } else {
        WakingKeepsInv(c);
      }
    } else if e.Shutdown? {
      ShutdownKeepsInv(c);
    } else if e.Reuse? {
      ReuseKeepsInv(c, e.since);
    } else {
      CallKeepsInv(c, e);
    }
  }

  lemma RunsKeepInv(run: seq<Cell>)
    requires Runs.IsRun(Init, Next, run)
    ensures forall i | 0 <= i < |run| :: Inv(run[i])
  {
    forall c, c' | Inv(c) && Next(c, c')
      ensures Inv(c')
    {
      var e :| Enabled(c, e) && c' == Step(c, e);
      StepKeepsInv(c, e);
    }
    Runs.Invariance(Init, Next, Inv, run);
  }

  // ----- no wakeup is lost -----

  /** In every run, a waiter in the list whose interest the status already
      satisfies has the driver on its way to wake it: as soon as the lock is
      free that step takes it off the list.  One no longer in the list has been
      told it is ready, and after a shutdown the list is empty. */
  lemma NoWaiterLost(run: seq<Cell>, i: nat, t: nat)
    requires Runs.IsRun(Init, Next, run) && i < |run|
    requires t < |run[i].tasks| && run[i].tasks[t].Waiting?
    ensures var c := run[i];
      && (t in c.listed && Satisfies(c.status.ready, c.tasks[t].interest) ==>
            c.driver.Waking? && (c.holder.None? ==> t in DriverStep(c).notified && t !in DriverStep(c).listed))
      && (t !in c.listed ==> t in c.notified)
      && (c.shutdown ==> t in c.notified)
  {
    assert Inv(run[i]) by {
      RunsKeepInv(run);
    }
  }

  /** The same for the slots: the waker of a poll that returned Pending is taken
      by a wake the driver is about to make as soon as the status satisfies its
      direction, and none is left after a shutdown. */
  lemma NoSlotLost(run: seq<Cell>, i: nat)
    requires Runs.IsRun(Init, Next, run) && i < |run|
    ensures var c := run[i];
      && (c.reader.Holding? && c.reader.pending ==>
            && !c.shutdown
            && (Readable(c.status.ready) ==> c.driver.Waking? && (c.holder.None? ==> DriverStep(c).reader.Empty?)))
      && (c.writer.Holding? && c.writer.pending ==>
            && !c.shutdown
            && (Writable(c.status.ready) ==> c.driver.Waking? && (c.holder.None? ==> DriverStep(c).writer.Empty?)))
  {
    assert Inv(run[i]) by {
      RunsKeepInv(run);
    }
  }

  /** The lock the driver may have to wait for is never stuck: its holder is one
      step from releasing it. */
  lemma LockReleased(run: seq<Cell>, i: nat)
    requires Runs.IsRun(Init, Next, run) && i < |run| && run[i].holder.Some?
    ensures Enabled(run[i], TaskGo(run[i].holder.value))
    ensures TaskStep(run[i], run[i].holder.value).holder.None?
  {
    assert Inv(run[i]) by {
      RunsKeepInv(run);
    }
  }

  // ----- stale clears -----

  /** The flags a step takes out of the status. */
  ghost predicate Erases(c: Cell, c': Cell, f: Flag) { f in c.status.ready && f !in c'.status.ready }

  /** A step of task t that clears a flag set since the dispatch it observed. */
  ghost predicate LosesNewer(c: Cell, t: nat, f: Flag) {
    && t < |c.tasks| && c.tasks[t].Clearing? && f in c.lastSet
    && Erases(c, TaskStep(c, t), f) && c.tasks[t].seen.turn < c.lastSet[f]
  }

  /** Only the next use of the cell or a clear erases a flag; a clear only one it
      saw, never a closed one, and one set since the dispatch it saw only if the
      tick has come round to the same value. */
  lemma ErasedOnlyBy(run: seq<Cell>, i: nat, e: Event, f: Flag)
    requires Runs.IsRun(Init, Next, run) && i < |run|
    requires Enabled(run[i], e) && Erases(run[i], Step(run[i], e), f)
    ensures e.Reuse? || (e.TaskGo? && run[i].tasks[e.t].Clearing? && !Closed(f) && f in run[i].lastSet)
    ensures !e.Reuse? ==>
      var seen := run[i].tasks[e.t].seen;
      && f in seen.ready
      && (seen.turn < run[i].lastSet[f] ==>
            seen.turn + 0x100 <= run[i].setTurn && (run[i].setTurn - seen.turn) % 0x100 == 0)
  {
    assert Inv(run[i]) by {
      RunsKeepInv(run);
    }
    var c := run[i];
    if e.TaskGo? && c.tasks[e.t].Clearing? {
      SameTick(c.tasks[e.t].seen.turn, c.setTurn);
    } else if !e.Reuse? {
      KeepsReady(c, e);
    }
  }

  lemma SameTick(a: nat, b: nat)
    requires a <= b && a % 0x100 == b % 0x100
    ensures a == b || (a + 0x100 <= b && (b - a) % 0x100 == 0)
  {
    var qa, qb := a / 0x100, b / 0x100;
    assert b - a == (qb - qa) * 0x100;
  }

  lemma KeepsReady(c: Cell, e: Event)
    requires Enabled(c, e) && !e.Reuse? && !(e.TaskGo? && c.tasks[e.t].Clearing?)
    ensures c.status.ready <= Step(c, e).status.ready && Step(c, e).uses == c.uses
  {
    if e.TaskGo? {
      assert TaskStep(c, e.t).status == c.status;
    }
  }

  lemma ClearKeepsClosed(c: Cell, t: nat)
    requires Enabled(c, TaskGo(t)) && c.tasks[t].Clearing?
    ensures TaskStep(c, t).uses == c.uses
    ensures forall f | Closed(f) && f in c.status.ready :: f in TaskStep(c, t).status.ready
  {
    var cleared := c.status.(ready := c.status.ready - Unclosed(c.tasks[t].seen.ready));
    assert TaskStep(c, t).status == c.status || TaskStep(c, t).status == cleared;
  }

  /** The closed flag is set, or the cell is in a later use. */
  ghost predicate ShowsClosed(c: Cell, f: Flag, use: nat) { c.uses > use || (c.uses == use && f in c.status.ready) }

  lemma StepKeepsClosed(c: Cell, c': Cell, f: Flag, use: nat)
    requires Next(c, c') && Closed(f) && ShowsClosed(c, f, use)
    ensures ShowsClosed(c', f, use)
  {
    var e :| Enabled(c, e) && c' == Step(c, e);
    if e.TaskGo? && c.tasks[e.t].Clearing? {
      ClearKeepsClosed(c, e.t);
    } else if e.Reuse? {
      assert c'.uses == c.uses + 1;
    } else {
      KeepsReady(c, e);
    }
  }

  /** A closed flag, once set, stays set as long as the cell is in the same use. */
  lemma ClosedStays(run: seq<Cell>, i: nat, j: nat, f: Flag)
    requires Runs.IsRun(Init, Next, run) && i <= j < |run| && run[i].uses == run[j].uses
    requires Closed(f) && f in run[i].status.ready
    ensures f in run[j].status.ready
  {
    var shows := (c: Cell) => ShowsClosed(c, f, run[i].uses);
    forall c, c' | shows(c) && Next(c, c')
      ensures shows(c')
    {
      StepKeepsClosed(c, c', f, run[i].uses);
    }
    Runs.Persists(Init, Next, shows, run, i, j);
  }

  // ----- stale dispatches -----

  lemma TokensDiffer(first: nat, use: nat, later: nat)
    requires use <= later
    ensures Token(first, use) == Token(first, later) <==> (later - use) % 0x80 == 0
  {
    var a, b := first + use, first + later;
    assert b == a + (later - use);
    var k := (later - use) / 0x80;
    if (later - use) % 0x80 == 0 {
      assert b == a + k * 0x80;
    } else if a % 0x80 == b % 0x80 {
      assert later - use == (b / 0x80 - a / 0x80) * 0x80;
    }
  }

  /** In every run the token of an earlier use, unless a multiple of 128 uses ago,
      changes nothing but where the driver is: it gives up, or loads the word
      once more and then gives up if nothing happens in between. */
  lemma ForeignTokenIgnored(run: seq<Cell>, i: nat)
    requires Runs.IsRun(Init, Next, run) && i < |run|
    requires run[i].driver.Setting? && (run[i].uses - run[i].driver.use) % 0x80 != 0
    ensures var c, c' := run[i], DriverStep(run[i]);
      || c' == c.(driver := Polling)
      || (c' == c.(driver := c.driver.(current := c.status)) && DriverStep(c') == c.(driver := Polling))
  {
    assert TokensFit(run[i]) by {
      RunsKeepInv(run);
      assert Inv(run[i]);
    }
    TokensDiffer(run[i].first, run[i].driver.use, run[i].uses);
  }

  /** The driver is about to set the readiness reported for an earlier use. */
  ghost predicate Misdirected(run: seq<Cell>, i: nat) {
    && Runs.IsRun(Init, Next, run) && i < |run|
    && run[i].driver.Setting? && DriverStep(run[i]).driver.Waking? && run[i].driver.use < run[i].uses
  }

  /** After 128 further uses the word is the one the driver loaded, and readiness
      reported for the first use is set in the last. */
  lemma MisdirectedRun() returns (run: seq<Cell>, c: Cell)
    ensures run != [] && Misdirected(run, |run| - 1) && run[|run| - 1] == c
    ensures c.driver.use == 0 && c.uses == 0x80
    ensures c.status.ready == {} && DriverStep(c).status.ready == {READABLE}
  {
    c := Fresh(0);
    run := [c];
    run, c := Take(run, c, Turn);
    run, c := Take(run, c, Dispatch(0, {READABLE}));
    run, c := TakeReuses(run, c, 0x80);
    assert c.status.generation == 0 by {
      RunsKeepInv(run);
      assert Inv(c);
    }
  }

  /** Readiness is set for a later use than the one it was reported for in no run
      within `late` further uses exactly when late is below 128. */
  lemma StaleDispatchIgnoredIff(late: nat)
    ensures (forall run: seq<Cell>, i | 0 <= i && Misdirected(run, i) :: late < run[i].uses - run[i].driver.use)
            <==> late < 0x80
  {
    if late < 0x80 {
      forall run: seq<Cell>, i | 0 <= i && Misdirected(run, i)
        ensures late < run[i].uses - run[i].driver.use
      {
        if (run[i].uses - run[i].driver.use) % 0x80 != 0 {
          ForeignTokenIgnored(run, i);
        }
      }
    } else {
      var run, c := MisdirectedRun();
      assert Misdirected(run, |run| - 1);
    }
  }

  // ----- how stale is too stale -----

  lemma Take(run: seq<Cell>, c: Cell, e: Event) returns (longer: seq<Cell>, c': Cell)
    requires Runs.IsRun(Init, Next, run) && run[|run| - 1] == c && Enabled(c, e)
    ensures Runs.IsRun(Init, Next, longer)
    ensures c' == Step(c, e) && longer == run + [c']
  {
    c' := Step(c, e);
    assert Next(c, c');
    Runs.Extend(Init, Next, run, c');
    longer := run + [c'];
  }

  lemma {:induction false} TakeTurns(run: seq<Cell>, c: Cell, n: nat) returns (longer: seq<Cell>, c': Cell)
    requires Runs.IsRun(Init, Next, run) && run[|run| - 1] == c && c.driver.Polling?
    ensures Runs.IsRun(Init, Next, longer)
    ensures c' == c.(turn := c.turn + n) && longer[|longer| - 1] == c'
    decreases n
  {
    longer, c' := run, c;
    if n > 0 {
      longer, c' := Take(longer, c', Turn);
      longer, c' := TakeTurns(longer, c', n - 1);
    }
  }

  lemma {:induction false} TakeReuses(run: seq<Cell>, c: Cell, n: nat) returns (longer: seq<Cell>, c': Cell)
    requires Runs.IsRun(Init, Next, run) && run[|run| - 1] == c && c.tasks == [] && n > 0
    ensures Runs.IsRun(Init, Next, longer) && longer[|longer| - 1] == c'
    ensures c'.status == Status(c'.status.generation, 0, {})
    ensures c'.driver == c.driver && c'.first == c.first && c'.uses == c.uses + n && c'.tasks == []
  {
    longer, c' := run, c;
    if n > 1 {
      longer, c' := TakeReuses(longer, c', n - 1);
    }
    longer, c' := Take(longer, c', Reuse(0));
  }

  function Fresh(tasks: nat): Cell {
    Cell(Status(0, 0, {}), Polling, None, {}, {}, Empty, Empty, false, seq(tasks, _ => Free),
         0, 0, map f | f in ALL :: 0, {}, 0, 0)
  }

  /** One dispatch of READABLE, from one driver turn to its end. */
  lemma TakeDispatch(run: seq<Cell>, c: Cell) returns (longer: seq<Cell>, c': Cell)
    requires Runs.IsRun(Init, Next, run) && run[|run| - 1] == c
    requires c.driver.Polling? && c.setTurn < c.turn && c.holder.None? && c.listed == {} && c.reader.Empty?
    requires c.status.generation == Token(c.first, c.uses)
    ensures Runs.IsRun(Init, Next, longer) && longer[|longer| - 1] == c'
    ensures c' == c.(status := Status(c.status.generation, c.turn % 0x100, c.status.ready + {READABLE}),
                     setTurn := c.turn,
                     lastSet := map f | f in c.lastSet :: if f == READABLE then c.turn else c.lastSet[f])
  {
    longer, c' := Take(run, c, Dispatch(c.uses, {READABLE}));
    longer, c' := Take(longer, c', DriverGo);
    assert c'.lastSet == map f | f in c.lastSet :: if f == READABLE then c.turn else c.lastSet[f];
    longer, c' := Take(longer, c', DriverGo);
    assert c'.listed == {} && c'.notified == c.notified;
  }

  /** An observation of the dispatch at turn 1. */
  function FirstSeen(at: nat): ReadyEvent { ReadyEvent(1, {READABLE}, 1, at) }

  /** A dispatch at turn 1 and an observation of it some turns later. */
  lemma ObservedRun(at: nat) returns (run: seq<Cell>, c: Cell)
    requires at >= 1
    ensures Runs.IsRun(Init, Next, run) && run[|run| - 1] == c
    ensures c == Fresh(1).(status := Status(0, 1, {READABLE}), turn := at, setTurn := 1,
                           lastSet := c.lastSet, events := {FirstSeen(at)})
    ensures c.lastSet.Keys == ALL
  {
    c := Fresh(1);
    run := [c];
    run, c := Take(run, c, Turn);
    run, c := TakeDispatch(run, c);
    run, c := TakeTurns(run, c, at - 1);
    run, c := Take(run, c, PollReadiness(0, Reads));
    assert Intersection(c.status.ready, Reads) == {READABLE};
    run, c := Take(run, c, TaskGo(0));
  }

  /** The same flag is dispatched again 256 turns after the first dispatch and
      then cleared with an observation of that one, made at any turn between. */
  lemma StaleRun(at: nat) returns (run: seq<Cell>, c: Cell)
    requires 1 <= at <= 257
    ensures Runs.IsRun(Init, Next, run) && run[|run| - 1] == c
    ensures LosesNewer(c, 0, READABLE) && c.turn == 257 && c.tasks[0].seen.turn == 1 && c.tasks[0].seen.at == at
  {
    run, c := ObservedRun(at);
    run, c := TakeTurns(run, c, 257 - at);
    run, c := TakeDispatch(run, c);
    run, c := Take(run, c, Event.Clear(0, FirstSeen(at)));
    assert TaskStep(c, 0).status == Status(0, 1, c.status.ready - Unclosed({READABLE}));
  }

  /** Somewhere in a run, task t is about to clear a flag that was set again
      after the dispatch it observed. */
  ghost predicate StaleLoss(run: seq<Cell>, i: nat, t: nat, f: Flag) {
    Runs.IsRun(Init, Next, run) && i < |run| && LosesNewer(run[i], t, f)
  }

  /** No run loses a newer flag to a clear within `gap` driver turns of the
      dispatch it observed exactly when gap is below 256. */
  lemma StaleClearsHarmlessIff(gap: nat)
    ensures (forall run: seq<Cell>, i: nat, t: nat, f | StaleLoss(run, i, t, f) ::
               gap < run[i].turn - run[i].tasks[t].seen.turn)
            <==> gap < 0x100
  {
    if gap < 0x100 {
      forall run: seq<Cell>, i: nat, t: nat, f | StaleLoss(run, i, t, f)
        ensures gap < run[i].turn - run[i].tasks[t].seen.turn
      {
        ErasedOnlyBy(run, i, TaskGo(t), f);
        RunsKeepInv(run);
      }
    } else {
      var run, c := StaleRun(1);
      assert StaleLoss(run, |run| - 1, 0, READABLE);
    }
  }

  /** No bound on the age of the observation itself rules the loss out, not even
      that it was made in the turn of the clear. */
  lemma FreshObservationLoses(age: nat)
    ensures !forall run: seq<Cell>, i: nat, t: nat, f | StaleLoss(run, i, t, f) ::
               age < run[i].turn - run[i].tasks[t].seen.at
  {
    var run, c := StaleRun(257);
    assert StaleLoss(run, |run| - 1, 0, READABLE);
  }

  /** A slot may keep a waker beside a satisfied status with no wake to come,
      when the poll that put it there went on to return Ready. */
  lemma ReadySlotLingers() returns (run: seq<Cell>, c: Cell)
    ensures Runs.IsRun(Init, Next, run) && run[|run| - 1] == c
    ensures c.driver.Polling? && Readable(c.status.ready) && c.reader == Holding(0, false) && c.tasks == [Free]
  {
    c := Fresh(1);
    run := [c];
    run, c := Take(run, c, PollReadiness(0, Reads));
    run, c := Take(run, c, TaskGo(0));
    run, c := Take(run, c, Turn);
    run, c := TakeDispatch(run, c);
    run, c := Take(run, c, TaskGo(0));
    run, c := Take(run, c, TaskGo(0));
  }

  // ----- the cell as an object -----

  /** `Tick`. */
  datatype Tick = Set(tick: nat) | Clear(tick: nat)

  datatype Waiter = Waiter(waker: nat, interest: Interest)

  /** The waiters whose interest is not satisfied, in order. */
  function Kept(list: seq<Waiter>, ready: Ready): seq<Waiter> {
    if list == [] then []
    else Kept(list[..|list| - 1], ready) + (if Satisfies(ready, Last(list).interest) then [] else [Last(list)])
  }

  /** The wakers of the others, in order. */
  function Drained(list: seq<Waiter>, ready: Ready): seq<nat> {
    if list == [] then []
    else Drained(list[..|list| - 1], ready) + (if Satisfies(ready, Last(list).interest) then [Last(list).waker] else [])
  }

  function Last(list: seq<Waiter>): Waiter
    requires list != []
  {
    list[|list| - 1]
  }

  function Optional(slot: Option<nat>, taken: bool): seq<nat> {
    if taken && slot.Some? then [slot.value] else []
  }

  /** Every waiter is kept or drained, by its interest alone. */
  lemma {:induction false} DrainSplits(list: seq<Waiter>, ready: Ready)
    ensures forall w | w in list ::
      if Satisfies(ready, w.interest) then w.waker in Drained(list, ready) else w in Kept(list, ready)
    ensures forall w | w in Kept(list, ready) :: w in list && !Satisfies(ready, w.interest)
    ensures |Kept(list, ready)| + |Drained(list, ready)| == |list|
  {
    if list != [] {
      DrainSplits(list[..|list| - 1], ready);
      assert list == list[..|list| - 1] + [Last(list)];
    }
  }

  /** The word of a fresh cell says that nothing is ready. */
  lemma EmptyWord() returns (s: Status)
    ensures s.Fits() && Pack(s) == 0
  {
    var ready: Ready := {};
    assert AsUsize(ready) == 0;
    s := Status(0, 0, ready);
  }

  lemma NextGeneration(g: nat)
    requires g < 0x80
    ensures SetGeneration(0, g + 1) == (g + 1) % 0x80 * 0x100_0000
  {
  }

  class ScheduleIo {
    var status: nat
    var list: seq<Waiter>
    var reader: Option<nat>
    var writer: Option<nat>
    var isShutdown: bool
    ghost var view: Status  // what the word says

    ghost predicate Valid()
      reads this
    {
      view.Fits() && status == Pack(view)
    }

    constructor ()
      ensures Valid() && status == 0
      ensures list == [] && reader == None && writer == None && !isShutdown
    {
      status, list, reader, writer, isShutdown := 0, [], None, None, false;
      ghost var empty := EmptyWord();
      view := empty;
    }

    method ResetEntry()
      requires Valid()
      modifies this`status, this`view
      ensures Valid() && view == Reset(old(view))
    {
      StatusRoundTrip(view);
      NextGeneration(view.generation);
      status := SetGeneration(0, Generation(status) + 1);
      view := Reset(view);
    }

    /** `set_readiness` when nobody else touches the word: the first
        compare-exchange succeeds. */
    method SetReadiness(token: Option<nat>, tick: Tick, f: Ready -> Ready) returns (ok: bool)
      requires Valid() && tick.tick < 0x100
      modifies this`status, this`view
      ensures Valid()
      ensures ok == ((token.Some? ==> Generation(token.value) == old(view).generation) &&
                     (tick.Clear? ==> tick.tick == old(view).tick))
      ensures view == if ok then Status(old(view).generation, tick.tick, f(old(view).ready)) else old(view)
    {
      StatusRoundTrip(view);
      var generation := Generation(status);
      if token.Some? && Generation(token.value) != generation {
        return false;
      }
      var word := AsUsize(f(FromUsize(status % 0x1_0000)));
      if tick.Clear? && TickOf(status) != tick.tick {
        return false;
      }
      BuiltByMasks(Status(generation, tick.tick, f(view.ready)));
      status := SetGeneration(SetTick(word, tick.tick), generation);
      view := Status(generation, tick.tick, f(view.ready));
      return true;
    }

    method ClearReadiness(seen: ReadyEvent)
      requires Valid() && seen.tick < 0x100
      modifies this`status, this`view
      ensures Valid()
      ensures view == if seen.tick == old(view).tick
                      then old(view).(ready := old(view).ready - Unclosed(seen.ready)) else old(view)
    {
      var mask := Unclosed(seen.ready);
      var ok := SetReadiness(None, Tick.Clear(seen.tick), curr => curr - mask);
    }

    /** `wake0`: the slots of the directions that are ready are emptied and the
        list is drained of the waiters that are satisfied, in order. */
    method Wake0(ready: Ready, shutdown: bool) returns (wakers: seq<nat>)
      modifies this`list, this`reader, this`writer, this`isShutdown
      ensures isShutdown == (old(isShutdown) || shutdown)
      ensures reader == (if Readable(ready) then None else old(reader))
      ensures writer == (if Writable(ready) then None else old(writer))
      ensures list == Kept(old(list), ready)
      ensures wakers ==
                Optional(old(reader), Readable(ready)) + Optional(old(writer), Writable(ready)) +
                Drained(old(list), ready)
    {
      isShutdown := isShutdown || shutdown;
      wakers := [];
      if Readable(ready) {
        if reader.Some? {
          wakers := wakers + [reader.value];
        }
        reader := None;
      }
      if Writable(ready) {
        if writer.Some? {
          wakers := wakers + [writer.value];
        }
        writer := None;
      }
      var drained := DrainSatisfied(ready);
      wakers := wakers + drained;
    }

    method DrainSatisfied(ready: Ready) returns (wakers: seq<nat>)
      modifies this`list
      ensures list == Kept(old(list), ready) && wakers == Drained(old(list), ready)
    {
      wakers := [];
      var i, kept := 0, [];
      while i < |list|
        invariant i <= |list|
        invariant kept == Kept(list[..i], ready)
        invariant wakers == Drained(list[..i], ready)
      {
        assert list[..i + 1][..i] == list[..i] && Last(list[..i + 1]) == list[i];
        if Satisfies(ready, list[i].interest) {
          wakers := wakers + [list[i].waker];
        } else {
          kept := kept + [list[i]];
        }
        i := i + 1;
      }
      assert list[..i] == list;
      list := kept;
    }
  }
}
