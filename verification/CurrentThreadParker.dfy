/** The parker and the task queue of executor/current_thread.rs.  Besides waking
    its thread the parker carries one bit: whether the blocked future was woken,
    as opposed to only a spawned task.  The thread inside `block_on` takes tasks
    off the queue until it finds none and then parks; any number of threads queue
    tasks and unpark it, and other threads inside `block_on` take tasks too. */
module CurrentThreadParker {
  import opened Tally
  import Runs

  type State = nat
  const IDLE: State := 0
  const PARKED_ON_CONDVAR: State := 1
  const PARKED_ON_DRIVER: State := 2
  const NOTIFIED: State := 3
  const NOTIFIED_BLOCK: State := 4

  /** The parking thread.  It holds the mutex in the Condvar states. */
  datatype Owner =
    | Awake                          // polling the future or taking tasks off the queue
    | Drained                        // found the queue empty, about to park
    | Driving                        // holds the driver, about to announce it
    | DriverEarly                    // was notified already, about to reset the state
    | OnDriver                       // inside driver.run()
    | DriverLate(park: bool)         // back from the driver, about to reset the state
    | Condvar                        // mutex held, about to announce the wait
    | CondvarEarly                   // mutex held, was notified already
    | Waiting(signalled: bool)       // waiting for the flag
    | CondvarLate                    // mutex held, took the flag, about to reset the state
    | OwnerPanic

  datatype Unparker =
    | Resting
    | Swapping(wake: bool)           // about to set the state
    | Flagging                       // found it parked on the condvar, about to set the flag
    | Notifying                      // about to notify
    | WakingDriver                   // found it parked on the driver, about to wake that
    | UnparkerPanic

  /** `queued` is the length of the task queue; `wakeCalls` and `wakeReturns` count the calls of `unpark(true)` and the
      times `park` returned true; `owed` says that `unpark(true)` was called
      since `park` last returned true. */
  datatype Parker = Parker(
    state: State,
    flag: bool,
    owner: Owner,
    driverWoken: bool,
    unparkers: seq<Unparker>,
    queued: nat,
    wakeCalls: nat,
    wakeReturns: nat,
    owed: bool)

  datatype Event =
    | Pop                            // scheduler.pop() by the owner
    | PopElsewhere                   // scheduler.pop() by another thread inside block_on
    | Schedule(u: nat)               // a task is queued and unpark(false) called
    | StartPark(driverLocked: bool)
    | OwnerGo
    | DriverReturns(park: bool)
    | WaitEnds
    | Unpark(u: nat, wake: bool)
    | UnparkerGo(u: nat)

  ghost predicate Init(p: Parker) {
    && p.state == IDLE && !p.flag && p.owner == Awake && !p.driverWoken
    && (forall u | 0 <= u < |p.unparkers| :: p.unparkers[u] == Resting)
    && p.wakeCalls == 0 && p.wakeReturns == 0 && !p.owed
  }

  predicate HoldsMutex(o: Owner) { o.Condvar? || o.CondvarEarly? || o.CondvarLate? }

  predicate Enabled(p: Parker, e: Event) {
    match e
    case Pop => p.owner.Awake?
    case PopElsewhere => p.queued > 0
    case Schedule(u) => u < |p.unparkers| && p.unparkers[u].Resting?
    case StartPark(_) => p.owner.Drained?
    case OwnerGo =>
      !p.owner.Awake? && !p.owner.Drained? && !p.owner.OnDriver? && !p.owner.Waiting? && !p.owner.OwnerPanic?
    case DriverReturns(_) => p.owner.OnDriver?
    case WaitEnds => p.owner.Waiting?
    case Unpark(u, _) => u < |p.unparkers| && p.unparkers[u].Resting?
    case UnparkerGo(u) =>
      && u < |p.unparkers| && !p.unparkers[u].Resting? && !p.unparkers[u].UnparkerPanic?
      && (p.unparkers[u].Flagging? ==> !HoldsMutex(p.owner))
  }

  /** `park` returns, saying whether the blocked future was woken. */
  function Return(p: Parker, wake: bool): Parker {
    p.(owner := Awake,
       wakeReturns := p.wakeReturns + One(wake),
       owed := p.owed && !wake)
  }

  /** `state.swap(IDLE)` where only the two notified values are expected. */
  function SwapNotified(p: Parker): Parker {
    var idle := p.(state := IDLE);
    if p.state == NOTIFIED_BLOCK then Return(idle, true)
    else if p.state == NOTIFIED then Return(idle, false)
    else idle.(owner := OwnerPanic)
  }

  /** `park_on_driver` and `park_on_condvar`. */
  function OwnerStep(p: Parker): Parker
    requires Enabled(p, OwnerGo)
  {
    match p.owner
    case Driving =>
      if p.state == IDLE then p.(state := PARKED_ON_DRIVER, owner := OnDriver)
      else if p.state == NOTIFIED || p.state == NOTIFIED_BLOCK then p.(owner := DriverEarly)
      else p.(owner := OwnerPanic)
    case DriverEarly => SwapNotified(p)
    case DriverLate(park) =>
      if p.state == PARKED_ON_DRIVER
      then (if park then p.(state := IDLE, owner := Condvar) else Return(p.(state := IDLE), false))
      else SwapNotified(p)
    case Condvar =>
      if p.state == IDLE
      then (if p.flag
            then p.(state := PARKED_ON_CONDVAR, flag := false, owner := CondvarLate)
            else p.(state := PARKED_ON_CONDVAR, owner := Waiting(false)))
      else if p.state == NOTIFIED || p.state == NOTIFIED_BLOCK then p.(owner := CondvarEarly)
      else p.(owner := OwnerPanic)
    case CondvarEarly => SwapNotified(p)
    case CondvarLate => SwapNotified(p)
  }

  function Put(p: Parker, u: nat, up: Unparker): Parker
    requires u < |p.unparkers|
  {
    p.(unparkers := p.unparkers[u := up])
  }

  /** `unpark`.  A plain unpark that finds the blocked future's wakeup has just
      overwritten it, and goes on to issue it again. */
  function UnparkerStep(p: Parker, u: nat): Parker
    requires Enabled(p, UnparkerGo(u))
  {
    match p.unparkers[u]
    case Swapping(wake) =>
      Put(p.(state := if wake then NOTIFIED_BLOCK else NOTIFIED), u,
          if p.state == IDLE || p.state == NOTIFIED then Resting
          else if p.state == NOTIFIED_BLOCK then (if wake then Resting else Swapping(true))
          else if p.state == PARKED_ON_CONDVAR then Flagging
          else if p.state == PARKED_ON_DRIVER then WakingDriver
          else UnparkerPanic)
    case Flagging => Put(p.(flag := true), u, Notifying)
    case Notifying =>
      Put(p.(owner := if p.owner.Waiting? then Waiting(true) else p.owner), u, Resting)
    case WakingDriver => Put(p.(driverWoken := true), u, Resting)
  }

  function Step(p: Parker, e: Event): Parker
    requires Enabled(p, e)
  {
    match e
    case Pop => if p.queued > 0 then p.(queued := p.queued - 1) else p.(owner := Drained)
    case PopElsewhere => p.(queued := p.queued - 1)
    case Schedule(u) => Put(p.(queued := p.queued + 1), u, Swapping(false))
    case StartPark(driverLocked) =>
      p.(driverWoken := false, owner := if driverLocked then Driving else Condvar)
    case OwnerGo => OwnerStep(p)
    case DriverReturns(park) => p.(driverWoken := false, owner := DriverLate(park))
    case WaitEnds =>
      if p.flag then p.(flag := false, owner := CondvarLate) else p.(owner := Waiting(false))
    case Unpark(u, wake) =>
      Put(p.(wakeCalls := p.wakeCalls + One(wake), owed := p.owed || wake), u, Swapping(wake))
    case UnparkerGo(u) => UnparkerStep(p, u)
  }

  predicate ByUnparker(e: Event) { e.Schedule? || e.Unpark? || e.UnparkerGo? }

  ghost predicate Next(p: Parker, p': Parker) {
    exists e :: Enabled(p, e) && p' == Step(p, e)
  }

  // ----- the invariant -----

  predicate IsFlagging(up: Unparker) { up.Flagging? }
  predicate IsNotifying(up: Unparker) { up.Notifying? }
  predicate IsWakingDriver(up: Unparker) { up.WakingDriver? }
  predicate IsWaking(up: Unparker) { up.Swapping? && up.wake }
  predicate IsSwapping(up: Unparker) { up.Swapping? }
  predicate HasPanicked(up: Unparker) { up.UnparkerPanic? }

  predicate IsNotified(state: State) { state == NOTIFIED || state == NOTIFIED_BLOCK }

  /** The values `state` can have where the owner is. */
  predicate StateFits(o: Owner, state: State) {
    match o
    case Awake => state == IDLE || IsNotified(state)
    case Drained => state == IDLE || IsNotified(state)
    case Driving => state == IDLE || IsNotified(state)
    case DriverEarly => IsNotified(state)
    case OnDriver => state == PARKED_ON_DRIVER || IsNotified(state)
    case DriverLate(_) => state == PARKED_ON_DRIVER || IsNotified(state)
    case Condvar => state == IDLE || IsNotified(state)
    case CondvarEarly => IsNotified(state)
    case Waiting(_) => state == PARKED_ON_CONDVAR || IsNotified(state)
    case CondvarLate => IsNotified(state)
    case OwnerPanic => false
  }

  ghost predicate WakeupOnItsWay(p: Parker) {
    // the flag is set, or about to be, exactly while a waiting owner is notified
    && Count(p.unparkers, IsFlagging) + One(p.flag) == One(p.owner.Waiting? && p.state != PARKED_ON_CONDVAR)
    && (p.owner.Waiting? && p.flag ==> p.owner.signalled || Count(p.unparkers, IsNotifying) > 0)
    && (p.owner.OnDriver? && p.state != PARKED_ON_DRIVER ==>
          p.driverWoken || Count(p.unparkers, IsWakingDriver) > 0)
  }

  /** A wakeup of the blocked future is in the state or about to be put there,
      and there are never more of them than were asked for. */
  ghost predicate WakeHeld(p: Parker) {
    && (p.owed ==> p.state == NOTIFIED_BLOCK || Count(p.unparkers, IsWaking) > 0)
    && p.wakeReturns + One(p.state == NOTIFIED_BLOCK) + Count(p.unparkers, IsWaking) <= p.wakeCalls
  }

  /** Queued tasks have an owner that will look at the queue again, a
      notification in the state or one about to be put there. */
  ghost predicate TasksHeld(p: Parker) {
    p.queued > 0 ==> p.owner.Awake? || IsNotified(p.state) || Count(p.unparkers, IsSwapping) > 0
  }

  ghost predicate Inv(p: Parker) {
    && StateFits(p.owner, p.state) && WakeupOnItsWay(p) && WakeHeld(p) && TasksHeld(p)
    && Count(p.unparkers, HasPanicked) == 0
  }

  lemma Recount(ups: seq<Unparker>, u: nat, up: Unparker)
    requires u < |ups|
    ensures Count(ups[u := up], IsFlagging) == Count(ups, IsFlagging) - One(IsFlagging(ups[u])) + One(IsFlagging(up))
    ensures Count(ups[u := up], IsNotifying) ==
            Count(ups, IsNotifying) - One(IsNotifying(ups[u])) + One(IsNotifying(up))
    ensures Count(ups[u := up], IsWakingDriver) ==
            Count(ups, IsWakingDriver) - One(IsWakingDriver(ups[u])) + One(IsWakingDriver(up))
    ensures Count(ups[u := up], IsWaking) == Count(ups, IsWaking) - One(IsWaking(ups[u])) + One(IsWaking(up))
    ensures Count(ups[u := up], IsSwapping) ==
            Count(ups, IsSwapping) - One(IsSwapping(ups[u])) + One(IsSwapping(up))
    ensures Count(ups[u := up], HasPanicked) ==
            Count(ups, HasPanicked) - One(HasPanicked(ups[u])) + One(HasPanicked(up))
  {
    CountUpdate(ups, u, up, IsFlagging);
    CountUpdate(ups, u, up, IsNotifying);
    CountUpdate(ups, u, up, IsWakingDriver);
    CountUpdate(ups, u, up, IsWaking);
    CountUpdate(ups, u, up, IsSwapping);
    CountUpdate(ups, u, up, HasPanicked);
  }

  lemma UnparkKeepsInv(p: Parker, u: nat, wake: bool)
    requires Inv(p) && Enabled(p, Unpark(u, wake))
    ensures Inv(Step(p, Unpark(u, wake)))
  {
    Recount(p.unparkers, u, Swapping(wake));
  }

  lemma ScheduleKeepsInv(p: Parker, u: nat)
    requires Inv(p) && Enabled(p, Schedule(u))
    ensures Inv(Step(p, Schedule(u)))
  {
    Recount(p.unparkers, u, Swapping(false));
  }

  lemma SwappingKeepsInv(p: Parker, u: nat)
    requires Inv(p) && Enabled(p, UnparkerGo(u)) && p.unparkers[u].Swapping?
    ensures Inv(UnparkerStep(p, u))
  {
    Recount(p.unparkers, u, UnparkerStep(p, u).unparkers[u]);
    if p.unparkers[u].wake {
      CountHas(p.unparkers, u, IsWaking);
    }
  }

  lemma FlaggingKeepsInv(p: Parker, u: nat)
    requires Inv(p) && Enabled(p, UnparkerGo(u)) && p.unparkers[u].Flagging?
    ensures Inv(UnparkerStep(p, u))
  {
    Recount(p.unparkers, u, Notifying);
    CountHas(p.unparkers, u, IsFlagging);
  }

  lemma WakingKeepsInv(p: Parker, u: nat)
    requires Inv(p) && Enabled(p, UnparkerGo(u)) && (p.unparkers[u].Notifying? || p.unparkers[u].WakingDriver?)
    ensures Inv(UnparkerStep(p, u))
  {
    Recount(p.unparkers, u, Resting);
  }

  lemma AnnouncingKeepsInv(p: Parker)
    requires Inv(p) && (p.owner.Driving? || p.owner.Condvar?)
    ensures Inv(OwnerStep(p))
  {
  }

  lemma EarlyKeepsInv(p: Parker)
    requires Inv(p) && (p.owner.DriverEarly? || p.owner.CondvarEarly? || p.owner.CondvarLate?)
    ensures Inv(OwnerStep(p))
  {
  }

  lemma DriverLateKeepsInv(p: Parker)
    requires Inv(p) && p.owner.DriverLate?
    ensures Inv(OwnerStep(p))
  {
  }

  lemma OwnerKeepsInv(p: Parker, e: Event)
    requires Inv(p) && Enabled(p, e) && !ByUnparker(e)
    ensures Inv(Step(p, e))
  {
    if e.OwnerGo? {
      if p.owner.Driving? || p.owner.Condvar? {
        AnnouncingKeepsInv(p);
      } else if p.owner.DriverLate? {
        DriverLateKeepsInv(p);
      } else {
        EarlyKeepsInv(p);
      }
    }
  }

  lemma InitInv(p: Parker)
    requires Init(p)
    ensures Inv(p)
  {
    CountZero(p.unparkers, IsFlagging);
    CountZero(p.unparkers, IsWaking);
    CountZero(p.unparkers, HasPanicked);
  }

  lemma RunsKeepInv(run: seq<Parker>)
    requires Runs.IsRun(Init, Next, run)
    ensures forall i | 0 <= i < |run| :: Inv(run[i])
  {
    forall p | Init(p)
      ensures Inv(p)
    {
      InitInv(p);
    }
    forall p, p' | Inv(p) && Next(p, p')
      ensures Inv(p')
    {
      var e :| Enabled(p, e) && p' == Step(p, e);
      if e.Unpark? {
        UnparkKeepsInv(p, e.u, e.wake);
      } else if e.Schedule? {
        ScheduleKeepsInv(p, e.u);
      } else if !e.UnparkerGo? {
        OwnerKeepsInv(p, e);
      } else if p.unparkers[e.u].Swapping? {
        SwappingKeepsInv(p, e.u);
      } else if p.unparkers[e.u].Flagging? {
        FlaggingKeepsInv(p, e.u);
      } else {
        WakingKeepsInv(p, e.u);
      }
    }
    Runs.Invariance(Init, Next, Inv, run);
  }

  // ----- the theorems -----

  /** In every run neither side reaches one of its panics. */
  lemma NeverPanics(run: seq<Parker>, i: nat)
    requires Runs.IsRun(Init, Next, run) && i < |run|
    ensures !run[i].owner.OwnerPanic?
    ensures forall u | 0 <= u < |run[i].unparkers| :: !run[i].unparkers[u].UnparkerPanic?
  {
    RunsKeepInv(run);
    CountZero(run[i].unparkers, HasPanicked);
  }

  /** In every run a wakeup of the blocked future that `park` has not reported is
      in the state, or an `unpark` is about to put it there. */
  lemma BlockedWakeHeld(run: seq<Parker>, i: nat)
    requires Runs.IsRun(Init, Next, run) && i < |run| && run[i].owed
    ensures run[i].state == NOTIFIED_BLOCK ||
      exists u :: 0 <= u < |run[i].unparkers| && run[i].unparkers[u] == Swapping(true)
  {
    RunsKeepInv(run);
    if run[i].state != NOTIFIED_BLOCK {
      var u := CountFind(run[i].unparkers, IsWaking);
    }
  }

  /** In every run a queued task has a thread that will look at the queue before
      it parks, a notification in the state, or an `unpark` about to put one
      there. */
  lemma NoTaskStranded(run: seq<Parker>, i: nat)
    requires Runs.IsRun(Init, Next, run) && i < |run| && run[i].queued > 0
    ensures run[i].owner.Awake? || IsNotified(run[i].state) ||
      exists u :: 0 <= u < |run[i].unparkers| && run[i].unparkers[u].Swapping?
  {
    RunsKeepInv(run);
    if !run[i].owner.Awake? && !IsNotified(run[i].state) {
      var u := CountFind(run[i].unparkers, IsSwapping);
    }
  }

  /** In every run, when no unpark is under way, a thread asleep without a
      wakeup has no notification of either kind, none is owed to it and no task
      is queued. */
  lemma NoLostWakeup(run: seq<Parker>, i: nat)
    requires Runs.IsRun(Init, Next, run) && i < |run|
    requires forall u | 0 <= u < |run[i].unparkers| :: run[i].unparkers[u].Resting?
    ensures run[i].owner == Waiting(false) ==> run[i].state == PARKED_ON_CONDVAR && !run[i].flag
    ensures run[i].owner == Waiting(false) ==> !run[i].owed && run[i].queued == 0
    ensures run[i].owner.OnDriver? && !run[i].driverWoken ==>
      run[i].state == PARKED_ON_DRIVER && !run[i].owed && run[i].queued == 0
  {
    RunsKeepInv(run);
    CountZero(run[i].unparkers, IsFlagging);
    CountZero(run[i].unparkers, IsNotifying);
    CountZero(run[i].unparkers, IsWakingDriver);
    CountZero(run[i].unparkers, IsWaking);
    CountZero(run[i].unparkers, IsSwapping);
  }

  /** In every run `park` has returned true at most once for each `unpark(true)`. */
  lemma WakesNotInvented(run: seq<Parker>, i: nat)
    requires Runs.IsRun(Init, Next, run) && i < |run|
    ensures run[i].wakeReturns <= run[i].wakeCalls
  {
    RunsKeepInv(run);
  }

  lemma OwnerUsesNotification(p: Parker, e: Event)
    requires StateFits(p.owner, p.state) && IsNotified(p.state)
    requires Enabled(p, e) && !ByUnparker(e) && Step(p, e).state != p.state
    ensures Step(p, e).owner == Awake && !p.owner.Awake?
    ensures Step(p, e).wakeReturns == p.wakeReturns + One(p.state == NOTIFIED_BLOCK)
  {
  }

  lemma UnparkerUsesNotification(p: Parker, e: Event)
    requires IsNotified(p.state) && Enabled(p, e) && ByUnparker(e)
    ensures IsNotified(Step(p, e).state)
    ensures p.state == NOTIFIED_BLOCK && Step(p, e).state != p.state ==>
      e.u < |Step(p, e).unparkers| && Step(p, e).unparkers[e.u] == Swapping(true)
  {
  }

  /** In every run a notification is used up only by the owner leaving `park`,
      and one for the blocked future only by `park` returning true, unless an
      `unpark` takes it in order to issue it again. */
  lemma NotificationEndsPark(run: seq<Parker>, i: nat)
    requires Runs.IsRun(Init, Next, run) && 0 < i < |run| && IsNotified(run[i - 1].state)
    ensures !IsNotified(run[i].state) ==>
      && run[i].owner == Awake && !run[i - 1].owner.Awake?
      && run[i].wakeReturns == run[i - 1].wakeReturns + One(run[i - 1].state == NOTIFIED_BLOCK)
    ensures run[i - 1].state == NOTIFIED_BLOCK && run[i].state == NOTIFIED ==>
      exists u :: 0 <= u < |run[i].unparkers| && run[i].unparkers[u] == Swapping(true)
  {
    var p, p' := run[i - 1], run[i];
    assert StateFits(p.owner, p.state) by {
      RunsKeepInv(run);
      assert Inv(p);
    }
    assert Next(p, p');
    var e :| Enabled(p, e) && p' == Step(p, e);
    if ByUnparker(e) {
      UnparkerUsesNotification(p, e);
    } else if p'.state != p.state {
      OwnerUsesNotification(p, e);
      assert p'.state != NOTIFIED;
    }
  }
}
