/** The two-version spinning lock of ylong_signal/src/spin_rwlock.rs, whose
    readers never block.  One step is one atomic operation.  Values are named
    by the box that holds them: box n is the n-th allocation, box 0 the initial
    value.  The mutex serialises the writers, so one writer is modelled. */
module SpinRwLock {
  import opened Options
  import opened Tally
  import Runs

  /** `usize::MAX / 2`. */
  const HOLDER_COUNT_MAX := 0x7FFF_FFFF_FFFF_FFFF

  type Box = nat

  /** An array of two, indexed modulo VERSIONS. */
  datatype Two<T> = Two(zero: T, one: T) {
    function At(slot: nat): T { if slot % 2 == 0 then zero else one }
    function With(slot: nat, v: T): Two<T> { if slot % 2 == 0 then Two(v, one) else Two(zero, v) }
  }

  function Other(slot: nat): nat { (slot + 1) % 2 }

  /** Bookkeeping of one call of `read`: the number of slots that had been
      cleared when it began and when it last loaded the version, how often it
      has gone round the loop, and the value that was published when it last
      loaded the version. */
  datatype Attempt = Attempt(start: nat, seen: nat, retries: nat, base: Box)

  datatype Reader =
    | Resting
    | Loading(a: Attempt)                // about to load the version
    | Loaded(slot: nat, a: Attempt)      // about to raise the holder count
    | Counted(slot: nat, a: Attempt)     // about to load the pointer
    | BackingOff(slot: nat, a: Attempt)  // saw null, about to lower the holder count
    | Guarding(slot: nat, box: Box)      // holds a ReadGuard
    | Aborted                            // the holder count overflowed

  /** `from` is the slot being replaced, `val` the box being stored. */
  datatype Writer =
    | Free
    | Held(version: nat)                        // holds a WriteGuard
    | Placing(from: nat, val: Box)               // about to store the pointer
    | Flipping(from: nat, val: Box)              // about to store the version
    | Clearing(from: nat, val: Box)              // about to swap the old pointer out
    | Draining(from: nat, val: Box, out: Option<Box>) // waiting for the holder count to be zero
    | Dropping(from: nat, val: Box, out: Option<Box>) // about to free the old box

  /** `completed` is the value of the last store that has returned; `cleared`
      counts the slots set to null and `freed` lists the boxes freed. */
  datatype Spin = Spin(
    version: nat,
    data: Two<Option<Box>>,
    holders: Two<int>,
    readers: seq<Reader>,
    writer: Writer,
    completed: Box,
    boxes: nat,
    cleared: nat,
    freed: seq<Box>)

  datatype Event =
    | Read(r: nat)
    | DropGuard(r: nat)
    | ReaderGo(r: nat)
    | Lock
    | Unlock
    | Store
    | WriterGo

  ghost predicate Init(s: Spin) {
    && s.version == 0 && s.data == Two(Some(0), None) && s.holders == Two(0, 0)
    && |s.readers| <= HOLDER_COUNT_MAX
    && (forall r | 0 <= r < |s.readers| :: s.readers[r] == Resting)
    && s.writer == Free
    && s.completed == 0 && s.boxes == 1 && s.cleared == 0 && s.freed == []
  }

  predicate Enabled(s: Spin, e: Event) {
    match e
    case Read(r) => r < |s.readers| && s.readers[r].Resting?
    case DropGuard(r) => r < |s.readers| && s.readers[r].Guarding?
    case ReaderGo(r) =>
      && r < |s.readers|
      && !s.readers[r].Resting? && !s.readers[r].Guarding? && !s.readers[r].Aborted?
    case Lock => s.writer.Free?
    case Unlock => s.writer.Held?
    case Store => s.writer.Held?
    case WriterGo => !s.writer.Free? && !s.writer.Held?
  }

  /** The value in the slot that `version` names. */
  function Published(s: Spin): Box {
    var current := s.data.At(s.version);
    if current.Some? then current.value else 0
  }

  function Put(s: Spin, r: nat, rd: Reader): Spin
    requires r < |s.readers|
  {
    s.(readers := s.readers[r := rd])
  }

  /** `read`, one atomic operation at a time. */
  function ReaderStep(s: Spin, r: nat): Spin
    requires Enabled(s, ReaderGo(r))
  {
    match s.readers[r]
    case Loading(a) => Put(s, r, Loaded(s.version % 2, a.(seen := s.cleared, base := Published(s))))
    case Loaded(slot, a) =>
      var count := s.holders.At(slot);
      Put(s.(holders := s.holders.With(slot, count + 1)), r,
          if count > HOLDER_COUNT_MAX then Aborted else Counted(slot, a))
    case Counted(slot, a) =>
      var data := s.data.At(slot);
      Put(s, r, if data.None? then BackingOff(slot, a) else Guarding(slot, data.value))
    case BackingOff(slot, a) =>
      Put(s.(holders := s.holders.With(slot, s.holders.At(slot) - 1)), r, Loading(a.(retries := a.retries + 1)))
  }

  /** `store`, one atomic operation at a time. */
  function WriterStep(s: Spin): Spin
    requires Enabled(s, WriterGo)
  {
    match s.writer
    case Placing(from, val) => s.(data := s.data.With(Other(from), Some(val)), writer := Flipping(from, val))
    case Flipping(from, val) => s.(version := Other(from), writer := Clearing(from, val))
    case Clearing(from, val) =>
      s.(data := s.data.With(from, None), cleared := s.cleared + 1, writer := Draining(from, val, s.data.At(from)))
    case Draining(from, val, out) =>
      if s.holders.At(from) != 0 then s else s.(writer := Dropping(from, val, out))
    case Dropping(from, val, out) =>
      s.(freed := if out.Some? then s.freed + [out.value] else s.freed,
         completed := val,
         writer := Held(Other(from)))
  }

  function Step(s: Spin, e: Event): Spin
    requires Enabled(s, e)
  {
    match e
    case Read(r) => Put(s, r, Loading(Attempt(s.cleared, s.cleared, 0, 0)))
    case DropGuard(r) =>
      var slot := s.readers[r].slot;
      Put(s.(holders := s.holders.With(slot, s.holders.At(slot) - 1)), r, Resting)
    case ReaderGo(r) => ReaderStep(s, r)
    case Lock => s.(writer := Held(s.version))
    case Unlock => s.(writer := Free)
    case Store => s.(boxes := s.boxes + 1, writer := Placing(s.writer.version % 2, s.boxes))
    case WriterGo => WriterStep(s)
  }

  ghost predicate Next(s: Spin, s': Spin) {
    exists e :: Enabled(s, e) && s' == Step(s, e)
  }

  // ----- the invariant -----

  /** The box of the store in progress, if there is one. */
  function InProgress(w: Writer): Option<Box> {
    if w.Free? || w.Held? then None else Some(w.val)
  }

  predicate OnSlot0(rd: Reader) { (rd.Counted? || rd.BackingOff? || rd.Guarding?) && rd.slot % 2 == 0 }
  predicate OnSlot1(rd: Reader) { (rd.Counted? || rd.BackingOff? || rd.Guarding?) && rd.slot % 2 == 1 }

  /** What the two slots hold at each point of a store. */
  ghost predicate SlotsMatch(w: Writer, version: nat, data: Two<Option<Box>>, completed: Box) {
    && version < 2
    && match w
       case Free => data.At(version) == Some(completed) && data.At(Other(version)).None?
       case Held(v) => v == version && data.At(version) == Some(completed) && data.At(Other(version)).None?
       case Placing(from, val) =>
         from == version && data.At(from) == Some(completed) && data.At(Other(from)).None?
       case Flipping(from, val) =>
         from == version && data.At(from) == Some(completed) && data.At(Other(from)) == Some(val)
       case Clearing(from, val) =>
         from == Other(version) && data.At(from) == Some(completed) && data.At(version) == Some(val)
       case Draining(from, val, out) =>
         from == Other(version) && data.At(from).None? && data.At(version) == Some(val) && out == Some(completed)
       case Dropping(from, val, out) =>
         from == Other(version) && data.At(from).None? && data.At(version) == Some(val) && out == Some(completed)
  }

  /** `version_holder_count` counts the readers registered on each slot. */
  ghost predicate HoldersMatch(holders: Two<int>, readers: seq<Reader>) {
    holders.zero == Count(readers, OnSlot0) && holders.one == Count(readers, OnSlot1)
  }

  /** The freed boxes are exactly those neither current nor being stored, each
      freed once. */
  ghost predicate FreedMatch(freed: seq<Box>, boxes: nat, completed: Box, storing: Option<Box>) {
    && completed < boxes
    && (storing.Some? ==> completed < storing.value < boxes)
    && (forall i, j | 0 <= i < j < |freed| :: freed[i] != freed[j])
    && (forall b: Box :: b in freed <==> b < boxes && b != completed && Some(b) != storing)
  }

  /** A guard's box is still in its slot, or its writer is waiting for it. */
  ghost predicate GuardSafe(rd: Reader, data: Two<Option<Box>>, w: Writer, completed: Box) {
    rd.Guarding? ==>
      || data.At(rd.slot) == Some(rd.box)
      || (w.Draining? && rd.slot % 2 == w.from % 2 && rd.box == completed)
  }

  /** Each trip round the loop of `read` is paid for by a slot cleared since
      the version was loaded. */
  ghost predicate RetriesPaid(rd: Reader, data: Two<Option<Box>>, cleared: nat) {
    match rd
    case Loading(a) => a.start + a.retries <= cleared
    case Loaded(slot, a) => a.start + a.retries <= a.seen <= cleared && (a.seen == cleared ==> data.At(slot).Some?)
    case Counted(slot, a) => a.start + a.retries <= a.seen <= cleared && (a.seen == cleared ==> data.At(slot).Some?)
    case BackingOff(slot, a) => a.start + a.retries <= a.seen < cleared
    case Aborted => false
    case _ => true
  }

  /** Between its two loads a reader that no clear has overtaken is on the
      current slot, or on the one about to be cleared, and its slot holds
      nothing older than what it saw published. */
  ghost predicate OnCourse(rd: Reader, s: Spin) {
    rd.Loaded? || rd.Counted? ==>
      && (rd.a.seen == s.cleared ==> rd.slot % 2 == s.version || (s.writer.Clearing? && rd.slot % 2 == s.writer.from))
      && rd.a.base <= Published(s)
      && (s.data.At(rd.slot).Some? ==> rd.a.base <= s.data.At(rd.slot).value)
  }

  ghost predicate ReadersOnCourse(s: Spin) {
    forall r | 0 <= r < |s.readers| :: OnCourse(s.readers[r], s)
  }

  ghost predicate ReadersSafe(s: Spin) {
    forall r | 0 <= r < |s.readers| ::
      && GuardSafe(s.readers[r], s.data, s.writer, s.completed)
      && RetriesPaid(s.readers[r], s.data, s.cleared)
  }

  ghost predicate Inv(s: Spin) {
    && |s.readers| <= HOLDER_COUNT_MAX
    && SlotsMatch(s.writer, s.version, s.data, s.completed)
    && HoldersMatch(s.holders, s.readers)
    && FreedMatch(s.freed, s.boxes, s.completed, InProgress(s.writer))
    && ReadersSafe(s) && ReadersOnCourse(s)
  }

  lemma InitInv(s: Spin)
    requires Init(s)
    ensures Inv(s)
  {
    CountZero(s.readers, OnSlot0);
    CountZero(s.readers, OnSlot1);
  }

  lemma HoldersFollow(holders: Two<int>, readers: seq<Reader>, r: nat, rd: Reader)
    requires r < |readers| && HoldersMatch(holders, readers)
    ensures holders.zero <= |readers| && holders.one <= |readers|
    ensures HoldersMatch(Two(holders.zero - One(OnSlot0(readers[r])) + One(OnSlot0(rd)),
                             holders.one - One(OnSlot1(readers[r])) + One(OnSlot1(rd))), readers[r := rd])
  {
    CountUpdate(readers, r, rd, OnSlot0);
    CountUpdate(readers, r, rd, OnSlot1);
    CountBound(readers, OnSlot0);
    CountBound(readers, OnSlot1);
  }

  lemma ReaderKeepsHolders(s: Spin, e: Event)
    requires HoldersMatch(s.holders, s.readers) && Enabled(s, e) && (e.Read? || e.DropGuard? || e.ReaderGo?)
    requires |s.readers| <= HOLDER_COUNT_MAX
    ensures HoldersMatch(Step(s, e).holders, Step(s, e).readers) && !Step(s, e).readers[e.r].Aborted?
  {
    HoldersFollow(s.holders, s.readers, e.r, Step(s, e).readers[e.r]);
  }

  lemma ReaderStaysSafe(s: Spin, e: Event)
    requires Inv(s) && Enabled(s, e) && (e.Read? || e.DropGuard? || e.ReaderGo?)
    requires !Step(s, e).readers[e.r].Aborted?
    ensures GuardSafe(Step(s, e).readers[e.r], s.data, s.writer, s.completed)
    ensures RetriesPaid(Step(s, e).readers[e.r], s.data, s.cleared)
  {
  }

  lemma ReaderStaysOnCourse(s: Spin, e: Event)
    requires Inv(s) && Enabled(s, e) && (e.Read? || e.DropGuard? || e.ReaderGo?)
    ensures ReadersOnCourse(Step(s, e))
  {
    var s' := Step(s, e);
    assert s'.readers == s.readers[e.r := s'.readers[e.r]] && Published(s') == Published(s);
    forall r | 0 <= r < |s.readers|
      ensures OnCourse(s'.readers[r], s')
    {
      assert OnCourse(s.readers[r], s);
      assert RetriesPaid(s.readers[r], s.data, s.cleared);
    }
  }

  lemma ReaderKeepsInv(s: Spin, e: Event)
    requires Inv(s) && Enabled(s, e) && (e.Read? || e.DropGuard? || e.ReaderGo?)
    ensures Inv(Step(s, e))
  {
    ReaderKeepsHolders(s, e);
    ReaderStaysSafe(s, e);
    ReaderStaysOnCourse(s, e);
  }

  /** A slot with no holders has no guard. */
  lemma DrainedUnguarded(s: Spin, slot: nat)
    requires HoldersMatch(s.holders, s.readers) && s.holders.At(slot) == 0
    ensures forall r | 0 <= r < |s.readers| :: !(s.readers[r].Guarding? && s.readers[r].slot % 2 == slot % 2)
  {
    CountZero(s.readers, OnSlot0);
    CountZero(s.readers, OnSlot1);
  }

  lemma WriterKeepsReaders(s: Spin, e: Event)
    requires Inv(s) && Enabled(s, e) && !e.Read? && !e.DropGuard? && !e.ReaderGo?
    ensures ReadersSafe(Step(s, e))
  {
    if e.WriterGo? && s.writer.Draining? && s.holders.At(s.writer.from) == 0 {
      DrainedUnguarded(s, s.writer.from);
    }
  }

  /** A step of the writer publishes nothing older, and what it places in a slot
      is newer than everything published. */
  lemma WriterKeepsCourse(s: Spin, e: Event)
    requires Inv(s) && Enabled(s, e) && !e.Read? && !e.DropGuard? && !e.ReaderGo?
    ensures Published(s) <= Published(Step(s, e)) && ReadersOnCourse(Step(s, e))
  {
    var s' := Step(s, e);
    assert s'.readers == s.readers;
    forall r | 0 <= r < |s.readers|
      ensures OnCourse(s'.readers[r], s')
    {
      assert OnCourse(s.readers[r], s);
      assert RetriesPaid(s.readers[r], s.data, s.cleared);
    }
  }

  lemma WriterKeepsFreed(s: Spin, e: Event)
    requires SlotsMatch(s.writer, s.version, s.data, s.completed)
    requires FreedMatch(s.freed, s.boxes, s.completed, InProgress(s.writer))
    requires Enabled(s, e) && !e.Read? && !e.DropGuard? && !e.ReaderGo?
    ensures var s' := Step(s, e); FreedMatch(s'.freed, s'.boxes, s'.completed, InProgress(s'.writer))
  {
  }

  lemma WriterKeepsInv(s: Spin, e: Event)
    requires Inv(s) && Enabled(s, e) && !e.Read? && !e.DropGuard? && !e.ReaderGo?
    ensures Inv(Step(s, e))
  {
    WriterKeepsReaders(s, e);
    WriterKeepsCourse(s, e);
    WriterKeepsFreed(s, e);
  }

  lemma RunsKeepInv(run: seq<Spin>)
    requires Runs.IsRun(Init, Next, run)
    ensures forall i | 0 <= i < |run| :: Inv(run[i])
  {
    forall s | Init(s)
      ensures Inv(s)
    {
      InitInv(s);
    }
    forall s, s' | Inv(s) && Next(s, s')
      ensures Inv(s')
    {
      var e :| Enabled(s, e) && s' == Step(s, e);
      if e.Read? || e.DropGuard? || e.ReaderGo? {
        ReaderKeepsInv(s, e);
      } else {
        WriterKeepsInv(s, e);
      }
    }
    Runs.Invariance(Init, Next, Inv, run);
  }

  // ----- the theorems -----

  /** In every run no live ReadGuard refers to a freed value. */
  lemma NoUseAfterFree(run: seq<Spin>, i: nat, r: nat)
    requires Runs.IsRun(Init, Next, run) && i < |run|
    requires r < |run[i].readers| && run[i].readers[r].Guarding?
    ensures run[i].readers[r].box < run[i].boxes && run[i].readers[r].box !in run[i].freed
  {
    RunsKeepInv(run);
  }

  /** In every run each value ever stored is the current one, the one being
      stored, or freed exactly once; and a writer about to free holds a real
      value that was not freed before and that no guard refers to. */
  lemma FreedExactlyOnce(run: seq<Spin>, i: nat, b: Box)
    requires Runs.IsRun(Init, Next, run) && i < |run| && b < run[i].boxes
    ensures multiset(run[i].freed)[b] == One(b != run[i].completed && Some(b) != InProgress(run[i].writer))
    ensures run[i].writer.Dropping? ==>
      && run[i].writer.out == Some(run[i].completed) && run[i].completed !in run[i].freed
      && forall r | 0 <= r < |run[i].readers| && run[i].readers[r].Guarding? ::
           run[i].readers[r].box != run[i].completed
  {
    RunsKeepInv(run);
    DistinctOnce(run[i].freed, b);
  }

  lemma {:induction false} DistinctOnce(freed: seq<Box>, b: Box)
    requires forall i, j | 0 <= i < j < |freed| :: freed[i] != freed[j]
    ensures multiset(freed)[b] == One(b in freed)
  {
    if freed != [] {
      assert freed == [freed[0]] + freed[1..];
      DistinctOnce(freed[1..], b);
      if freed[0] == b {
        assert b !in freed[1..];
      }
    }
  }

  /** In every run the holder count of each slot is the number of readers
      registered on it, so it never falls below zero, and no reader aborts. */
  lemma HolderCountsExact(run: seq<Spin>, i: nat)
    requires Runs.IsRun(Init, Next, run) && i < |run|
    ensures run[i].holders.At(0) == Count(run[i].readers, OnSlot0) <= HOLDER_COUNT_MAX
    ensures run[i].holders.At(1) == Count(run[i].readers, OnSlot1) <= HOLDER_COUNT_MAX
    ensures forall r | 0 <= r < |run[i].readers| :: !run[i].readers[r].Aborted?
  {
    RunsKeepInv(run);
    CountBound(run[i].readers, OnSlot0);
    CountBound(run[i].readers, OnSlot1);
    forall r | 0 <= r < |run[i].readers|
      ensures RetriesPaid(run[i].readers[r], run[i].data, run[i].cleared)
    {
    }
  }

  /** In every run the slot named by `version` holds a live value, and the
      version a WriteGuard dereferences is that slot. */
  lemma CurrentSlotLive(run: seq<Spin>, i: nat)
    requires Runs.IsRun(Init, Next, run) && i < |run|
    ensures run[i].data.At(run[i].version).Some?
    ensures run[i].data.At(run[i].version).value !in run[i].freed
    ensures run[i].writer.Held? ==> run[i].data.At(run[i].writer.version) == Some(run[i].completed)
  {
    RunsKeepInv(run);
  }

  /** In every run a read returns the value of the last store that had returned
      when it loaded the pointer, or of the store then in progress. */
  lemma ReadsAreRegular(run: seq<Spin>, i: nat, r: nat)
    requires Runs.IsRun(Init, Next, run) && 0 < i < |run|
    requires r < |run[i].readers| == |run[i - 1].readers|
    requires run[i].readers[r].Guarding? && !run[i - 1].readers[r].Guarding?
    ensures var box := run[i].readers[r].box;
      box == run[i - 1].completed || Some(box) == InProgress(run[i - 1].writer)
  {
    RunsKeepInv(run);
    LoadIsRegular(run[i - 1], run[i], r);
  }

  /** Only loading the pointer makes a guard. */
  lemma OnlyLoadGuards(s: Spin, e: Event, r: nat)
    requires Enabled(s, e) && r < |s.readers|
    ensures r < |Step(s, e).readers|
    ensures Step(s, e).readers[r].Guarding? && !s.readers[r].Guarding? ==>
      e == ReaderGo(r) && s.readers[r].Counted? && s.data.At(s.readers[r].slot) == Some(Step(s, e).readers[r].box)
  {
    if !e.Read? && !e.DropGuard? && !e.ReaderGo? {
      assert Step(s, e).readers == s.readers;
    }
  }

  lemma LoadIsRegular(s: Spin, s': Spin, r: nat)
    requires SlotsMatch(s.writer, s.version, s.data, s.completed) && Next(s, s')
    requires r < |s.readers| == |s'.readers| && s'.readers[r].Guarding? && !s.readers[r].Guarding?
    ensures s'.readers[r].box == s.completed || Some(s'.readers[r].box) == InProgress(s.writer)
  {
    var e :| Enabled(s, e) && s' == Step(s, e);
    OnlyLoadGuards(s, e, r);
  }

  /** In every run a call of `read` has gone round its loop at most once for
      each slot a store has cleared since the call began. */
  lemma RetriesBounded(run: seq<Spin>, i: nat, r: nat)
    requires Runs.IsRun(Init, Next, run) && i < |run| && r < |run[i].readers|
    requires var rd := run[i].readers[r]; rd.Loading? || rd.Loaded? || rd.Counted? || rd.BackingOff?
    ensures run[i].readers[r].a.retries <= run[i].cleared - run[i].readers[r].a.start
  {
    RunsKeepInv(run);
    assert RetriesPaid(run[i].readers[r], run[i].data, run[i].cleared);
  }

  // ----- the regular register this implements -----

  /** A register: its value, and the value of a store in progress. */
  datatype Register<T> = Register(value: T, storing: Option<T>)

  /** What a read of the register may return at this moment. */
  predicate Readable<T(==)>(reg: Register<T>, v: T) {
    v == reg.value || reg.storing == Some(v)
  }

  function BeginStore<T>(reg: Register<T>, v: T): Register<T> { reg.(storing := Some(v)) }

  function EndStore<T>(reg: Register<T>): Register<T>
    requires reg.storing.Some?
  {
    Register(reg.storing.value, None)
  }

  function RegisterOf(s: Spin): Register<Box> { Register(s.completed, InProgress(s.writer)) }

  /** Every step of the lock leaves the register alone, begins a store of a
      value never stored before, or ends the store in progress; and every guard
      is made of a value the register may return at that moment. */
  lemma RefinesRegister(run: seq<Spin>, i: nat)
    requires Runs.IsRun(Init, Next, run) && 0 < i < |run|
    ensures var reg, reg' := RegisterOf(run[i - 1]), RegisterOf(run[i]);
      || reg' == reg
      || (reg.storing.None? && reg' == BeginStore(reg, run[i - 1].boxes) && run[i - 1].boxes < run[i].boxes)
      || (reg.storing.Some? && reg' == EndStore(reg))
    ensures |run[i].readers| == |run[i - 1].readers|
    ensures forall r | 0 <= r < |run[i].readers| && run[i].readers[r].Guarding? && !run[i - 1].readers[r].Guarding? ::
      Readable(RegisterOf(run[i - 1]), run[i].readers[r].box)
  {
    RunsKeepInv(run);
    var s, s' := run[i - 1], run[i];
    assert Next(s, s');
    var e :| Enabled(s, e) && s' == Step(s, e);
    StepOfRegister(s, e);
    forall r | 0 <= r < |s'.readers| && s'.readers[r].Guarding? && !s.readers[r].Guarding?
      ensures Readable(RegisterOf(s), s'.readers[r].box)
    {
      LoadIsRegular(s, s', r);
    }
  }

  lemma StepOfRegister(s: Spin, e: Event)
    requires Enabled(s, e)
    ensures |Step(s, e).readers| == |s.readers|
    ensures var reg, reg' := RegisterOf(s), RegisterOf(Step(s, e));
      || reg' == reg
      || (reg.storing.None? && reg' == BeginStore(reg, s.boxes) && s.boxes < Step(s, e).boxes)
      || (reg.storing.Some? && reg' == EndStore(reg))
  {
  }

  // ----- regular, not atomic -----

  lemma Take(run: seq<Spin>, s: Spin, e: Event) returns (longer: seq<Spin>, s': Spin)
    requires Runs.IsRun(Init, Next, run) && run[|run| - 1] == s && Enabled(s, e)
    ensures Runs.IsRun(Init, Next, longer)
    ensures s' == Step(s, e) && longer == run + [s']
  {
    s' := Step(s, e);
    assert Next(s, s');
    Runs.Extend(Init, Next, run, s');
    longer := run + [s'];
  }

  /** A first store is published while reader 0 sits between loading the version
      and raising the holder count of the slot it names. */
  lemma FirstPublished() returns (run: seq<Spin>, s: Spin)
    ensures Runs.IsRun(Init, Next, run) && run[|run| - 1] == s
    ensures s == Spin(1, Two(Some(0), Some(1)), Two(0, 0), [Loaded(0, Attempt(0, 0, 0, 0)), Resting],
                      Clearing(0, 1), 0, 2, 0, [])
  {
    s := Spin(0, Two(Some(0), None), Two(0, 0), [Resting, Resting], Free, 0, 1, 0, []);
    run := [s];
    run, s := Take(run, s, Read(0));
    run, s := Take(run, s, ReaderGo(0));
    run, s := Take(run, s, Lock);
    run, s := Take(run, s, Store);
    run, s := Take(run, s, WriterGo);
    run, s := Take(run, s, WriterGo);
  }

  /** That store returns, reader 0 registers on the cleared slot, and the next
      store fills the slot again. */
  lemma SecondPlaced() returns (run: seq<Spin>, s: Spin)
    ensures Runs.IsRun(Init, Next, run) && run[|run| - 1] == s
    ensures s == Spin(1, Two(Some(2), Some(1)), Two(1, 0), [Counted(0, Attempt(0, 0, 0, 0)), Resting],
                      Flipping(1, 2), 1, 3, 1, [0])
  {
    run, s := FirstPublished();
    run, s := Take(run, s, WriterGo);
    run, s := Take(run, s, WriterGo);
    run, s := Take(run, s, WriterGo);
    run, s := Take(run, s, ReaderGo(0));
    run, s := Take(run, s, Store);
    run, s := Take(run, s, WriterGo);
  }

  /** Regular, not atomic: a run in which a read returns the value being stored
      and a read that begins later returns the value before it. */
  lemma NewThenOld() returns (run: seq<Spin>, i: nat, j: nat)
    ensures Runs.IsRun(Init, Next, run) && i < j < |run|
    ensures run[i].writer == run[j].writer == Flipping(1, 2) && run[i].completed == run[j].completed == 1
    ensures run[i].readers == [Guarding(0, 2), Resting]
    ensures run[j].readers == [Guarding(0, 2), Guarding(1, 1)]
  {
    var s;
    run, s := SecondPlaced();
    run, s := Take(run, s, ReaderGo(0));
    i := |run| - 1;
    run, s := Take(run, s, Read(1));
    run, s := Take(run, s, ReaderGo(1));
    run, s := Take(run, s, ReaderGo(1));
    run, s := Take(run, s, ReaderGo(1));
    j := |run| - 1;
  }

  // ----- exactly when reads are atomic -----

  /** Step i of a run is the pointer load that gives reader r its guard. */
  ghost predicate LoadsAt(run: seq<Spin>, i: nat, r: nat) {
    && 0 < i < |run| && r < |run[i - 1].readers| == |run[i].readers|
    && !run[i - 1].readers[r].Guarding? && run[i].readers[r].Guarding?
  }

  /** A reader about to load a pointer that is in place but not yet published. */
  predicate Premature(s: Spin, r: nat) {
    && r < |s.readers| && s.readers[r].Counted?
    && s.writer.Flipping? && s.readers[r].slot % 2 != s.version
  }

  /** After step i reader q, at rest at step k, reads an older value than r did. */
  ghost predicate LaterOlder(run: seq<Spin>, i: nat, r: nat, k: nat, j: nat, q: nat) {
    && LoadsAt(run, i, r) && LoadsAt(run, j, q) && i <= k < j
    && q < |run[k].readers| && run[k].readers[q].Resting?
    && run[j].readers[q].box < run[i].readers[r].box
  }

  /** A pointer load returns a value newer than the published one exactly when
      it is premature, and then its version load predates the last clear. */
  lemma LoadNewerIff(run: seq<Spin>, i: nat, r: nat)
    requires Runs.IsRun(Init, Next, run) && LoadsAt(run, i, r)
    ensures run[i].readers[r].box > Published(run[i - 1]) <==> Premature(run[i - 1], r)
    ensures Premature(run[i - 1], r) ==> run[i - 1].readers[r].a.seen < run[i - 1].cleared
  {
    assert Inv(run[i - 1]) by {
      RunsKeepInv(run);
    }
    assert Next(run[i - 1], run[i]);
    LoadMeans(run[i - 1], run[i], r);
  }

  lemma LoadMeans(s: Spin, s': Spin, r: nat)
    requires Inv(s) && Next(s, s') && r < |s.readers| == |s'.readers|
    requires !s.readers[r].Guarding? && s'.readers[r].Guarding?
    ensures s'.readers[r].box > Published(s) <==> Premature(s, r)
    ensures Premature(s, r) ==> s.readers[r].a.seen < s.cleared
    ensures s.readers[r].Counted? && s.readers[r].a.base <= s'.readers[r].box
  {
    var e :| Enabled(s, e) && s' == Step(s, e);
    OnlyLoadGuards(s, e, r);
    assert OnCourse(s.readers[r], s) && RetriesPaid(s.readers[r], s.data, s.cleared);
  }

  /** The published value only gets newer. */
  lemma PublishedGrows(run: seq<Spin>, i: nat, j: nat)
    requires Runs.IsRun(Init, Next, run) && i <= j < |run|
    ensures Published(run[i]) <= Published(run[j])
  {
    RunsKeepInv(run);
    var least := Published(run[i]);
    var since := (s: Spin) => Inv(s) && least <= Published(s);
    forall s, s' | since(s) && Next(s, s')
      ensures since(s')
    {
      StepPublishes(s, s');
    }
    Runs.Persists(Init, Next, since, run, i, j);
  }

  lemma StepPublishes(s: Spin, s': Spin)
    requires Inv(s) && Next(s, s')
    ensures Inv(s') && Published(s) <= Published(s')
  {
    var e :| Enabled(s, e) && s' == Step(s, e);
    if e.Read? || e.DropGuard? || e.ReaderGo? {
      ReaderKeepsInv(s, e);
    } else {
      WriterKeepsInv(s, e);
      WriterKeepsCourse(s, e);
    }
  }

  /** Reader q has read, or is going to read, nothing older than b. */
  ghost predicate NothingOlder(s: Spin, q: nat, b: Box) {
    && Inv(s) && b <= Published(s) && q < |s.readers|
    && (s.readers[q].Loaded? || s.readers[q].Counted? ==> b <= s.readers[q].a.base)
    && (s.readers[q].Guarding? ==> b <= s.readers[q].box)
  }

  lemma ReaderMoves(s: Spin, s': Spin, q: nat)
    requires Next(s, s') && q < |s.readers|
    ensures q < |s'.readers| && var rd, rd' := s.readers[q], s'.readers[q];
      && (rd'.Loaded? ==> rd' == rd || rd'.a.base == Published(s))
      && (rd'.Counted? ==> rd' == rd || (rd.Loaded? && rd'.a == rd.a))
      && (rd'.Guarding? && rd.Guarding? ==> rd' == rd)
  {
    var e :| Enabled(s, e) && s' == Step(s, e);
    if !e.Read? && !e.DropGuard? && !e.ReaderGo? {
      assert s'.readers == s.readers;
    }
  }

  lemma StepReadsNothingOlder(s: Spin, s': Spin, q: nat, b: Box)
    requires NothingOlder(s, q, b) && Next(s, s')
    ensures NothingOlder(s', q, b)
  {
    StepPublishes(s, s');
    ReaderMoves(s, s', q);
    if s'.readers[q].Guarding? && !s.readers[q].Guarding? {
      SameReaders(s, s');
      LoadMeans(s, s', q);
    }
  }

  lemma SameReaders(s: Spin, s': Spin)
    requires Next(s, s')
    ensures |s'.readers| == |s.readers|
  {
  }

  /** What a read returns is no older than what was published before it began. */
  lemma ReadNothingOlder(run: seq<Spin>, k: nat, j: nat, q: nat)
    requires Runs.IsRun(Init, Next, run) && k < j < |run| && LoadsAt(run, j, q)
    requires q < |run[k].readers| && run[k].readers[q].Resting?
    ensures Published(run[k]) <= run[j].readers[q].box
  {
    RunsKeepInv(run);
    var b := Published(run[k]);
    var since := (s: Spin) => NothingOlder(s, q, b);
    forall s, s' | since(s) && Next(s, s')
      ensures since(s')
    {
      StepReadsNothingOlder(s, s', q, b);
    }
    Runs.Persists(Init, Next, since, run, k, j);
  }

  /** A read that begins later returns an older value only if the first one's
      pointer load was premature: its version load predates the last clear, so
      a whole store had passed between its two loads. */
  lemma OlderOnlyAfterPremature(run: seq<Spin>, i: nat, r: nat, k: nat, j: nat, q: nat)
    requires Runs.IsRun(Init, Next, run) && LaterOlder(run, i, r, k, j, q)
    ensures Premature(run[i - 1], r) && run[i - 1].readers[r].a.seen < run[i - 1].cleared
  {
    LoadNewerIff(run, i, r);
    PublishedGrows(run, i - 1, k);
    ReadNothingOlder(run, k, j, q);
  }

  /** After a premature load the same reader can at once read the older value. */
  lemma OlderAfterPremature(run: seq<Spin>, r: nat) returns (longer: seq<Spin>)
    requires Runs.IsRun(Init, Next, run) && LoadsAt(run, |run| - 1, r) && Premature(run[|run| - 2], r)
    ensures Runs.IsRun(Init, Next, longer) && run <= longer
    ensures LaterOlder(longer, |run| - 1, r, |run|, |run| + 4, r)
  {
    var i := |run| - 1;
    LoadNewerIff(run, i, r);
    PrematureLoad(run, r);
    var s := run[i];
    longer, s := Take(run, s, DropGuard(r));
    longer, s := Take(longer, s, Read(r));
    longer, s := Take(longer, s, ReaderGo(r));
    longer, s := Take(longer, s, ReaderGo(r));
    longer, s := Take(longer, s, ReaderGo(r));
    assert longer[i - 1] == run[i - 1] && longer[i] == run[i];
  }

  /** The load leaves the lock as it was, the writer about to publish. */
  lemma PrematureLoad(run: seq<Spin>, r: nat)
    requires Runs.IsRun(Init, Next, run) && LoadsAt(run, |run| - 1, r) && Premature(run[|run| - 2], r)
    ensures var s, s' := run[|run| - 2], run[|run| - 1];
      && s'.data == s.data && s'.version == s.version == s'.version % 2 && Published(s') == Published(s)
      && s'.data.At(s'.version).Some? && s'.holders.At(s'.version) <= HOLDER_COUNT_MAX
  {
    RunsKeepInv(run);
    HolderCountsExact(run, |run| - 1);
    var s, s' := run[|run| - 2], run[|run| - 1];
    assert Next(s, s');
    var e :| Enabled(s, e) && s' == Step(s, e);
    OnlyLoadGuards(s, e, r);
  }

  /** A longer run in which a read after the last step of the first one returns
      an older value than r has just read. */
  ghost predicate GoesOnOlder(run: seq<Spin>, r: nat, longer: seq<Spin>, k: nat, j: nat, q: nat) {
    && run != [] && Runs.IsRun(Init, Next, longer) && run <= longer
    && LaterOlder(longer, |run| - 1, r, k, j, q)
  }

  ghost predicate CanReadOlder(run: seq<Spin>, r: nat) {
    exists longer, k, j, q :: GoesOnOlder(run, r, longer, k, j, q)
  }

  /** A run that has just made a read can go on to a later read of an older value
      exactly when the first one's pointer load was premature. */
  lemma ReadsAtomicIff(run: seq<Spin>, r: nat)
    requires Runs.IsRun(Init, Next, run) && LoadsAt(run, |run| - 1, r)
    ensures CanReadOlder(run, r) <==> Premature(run[|run| - 2], r)
  {
    if CanReadOlder(run, r) {
      var longer, k, j, q :| GoesOnOlder(run, r, longer, k, j, q);
      OlderOnlyAfterPremature(longer, |run| - 1, r, k, j, q);
    }
    if Premature(run[|run| - 2], r) {
      var longer := OlderAfterPremature(run, r);
      assert GoesOnOlder(run, r, longer, |run|, |run| + 4, r);
    }
  }
}
