/** The worker parker of executor/parker.rs: one thread parks, any number of
    threads unpark it.  One step is one operation on `state`, or one use of the
    mutex, the condition variable or the driver.  Waits may end spuriously. */
module WorkerParker {
  import opened Tally
  import Runs

  type State = nat
  const IDLE: State := 0
  const PARKED_ON_CONDVAR: State := 1
  const PARKED_ON_DRIVER: State := 2
  const NOTIFIED: State := 3

  datatype ParkFlag = NotPark | Park | ParkTimeout

  /** The parking thread.  It holds the mutex from Condvar to the wait, and again
      from the end of the wait to the next one. */
  datatype Owner =
    | Awake
    | Trying(left: nat)              // the loop that looks for a notification first
    | Driving                        // holds the driver, about to announce it
    | DriverEarly                    // was notified already, about to reset the state
    | OnDriver                       // inside driver.run()
    | DriverLate(flag: ParkFlag)     // back from the driver, about to reset the state
    | Condvar(timed: bool)           // mutex held, about to announce the wait
    | CondvarEarly                   // mutex held, was notified already
    | BeforeWait(timed: bool)        // mutex held, about to wait
    | Waiting(timed: bool, signalled: bool)
    | Woken(timed: bool, timedOut: bool)  // mutex held, about to look at the state
    | TimingOut                      // mutex held, timed out, about to reset the state
    | OwnerPanic

  datatype Unparker =
    | Resting
    | Swapping                       // about to set the state to NOTIFIED
    | Locking                        // found it parked on the condvar, about to pass the mutex
    | Notifying                      // about to notify
    | WakingDriver                   // found it parked on the driver, about to wake that
    | UnparkerPanic

  datatype Parker = Parker(state: State, owner: Owner, driverWoken: bool, unparkers: seq<Unparker>)

  datatype Event =
    | StartPark
    | DriverLocked(ok: bool)         // the result of try_lock on the driver
    | OwnerGo
    | DriverReturns(flag: ParkFlag)
    | WaitEnds(timedOut: bool)       // notified, timed out or spurious
    | Unpark(u: nat)
    | UnparkerGo(u: nat)

  ghost predicate Init(p: Parker) {
    && p.state == IDLE && p.owner == Awake && !p.driverWoken
    && forall u | 0 <= u < |p.unparkers| :: p.unparkers[u] == Resting
  }

  predicate HoldsMutex(o: Owner) {
    o.Condvar? || o.CondvarEarly? || o.BeforeWait? || o.Woken? || o.TimingOut?
  }

  predicate Enabled(p: Parker, e: Event) {
    match e
    case StartPark => p.owner.Awake?
    case DriverLocked(_) => p.owner == Trying(0)
    case OwnerGo =>
      && !p.owner.Awake? && p.owner != Trying(0) && !p.owner.OnDriver? && !p.owner.Waiting? && !p.owner.OwnerPanic?
    case DriverReturns(_) => p.owner.OnDriver?
    case WaitEnds(timedOut) => p.owner.Waiting? && (timedOut ==> p.owner.timed)
    case Unpark(u) => u < |p.unparkers| && p.unparkers[u].Resting?
    case UnparkerGo(u) =>
      && u < |p.unparkers| && !p.unparkers[u].Resting? && !p.unparkers[u].UnparkerPanic?
      && (p.unparkers[u].Locking? ==> !HoldsMutex(p.owner))
  }

  /** `park`, `park_on_driver` and `park_on_condvar_timeout`. */
  function OwnerStep(p: Parker): Parker
    requires Enabled(p, OwnerGo)
  {
    match p.owner
    case Trying(left) =>
      if p.state == NOTIFIED then p.(state := IDLE, owner := Awake) else p.(owner := Trying(left - 1))
    case Driving =>
      if p.state == IDLE then p.(state := PARKED_ON_DRIVER, owner := OnDriver)
      else if p.state == NOTIFIED then p.(owner := DriverEarly)
      else p.(owner := OwnerPanic)
    case DriverEarly => p.(state := IDLE, owner := Awake)
    case DriverLate(flag) =>
      p.(state := IDLE,
         owner := if p.state == NOTIFIED then Awake
                  else if p.state != PARKED_ON_DRIVER then OwnerPanic
                  else if flag.NotPark? then Awake
                  else Condvar(flag.ParkTimeout?))
    case Condvar(timed) =>
      if p.state == IDLE then p.(state := PARKED_ON_CONDVAR, owner := BeforeWait(timed))
      else if p.state == NOTIFIED then p.(owner := CondvarEarly)
      else p.(owner := OwnerPanic)
    case CondvarEarly => p.(state := IDLE, owner := Awake)
    case BeforeWait(timed) => p.(owner := Waiting(timed, false))
    case Woken(timed, timedOut) =>
      if p.state == NOTIFIED then p.(state := IDLE, owner := Awake)
      else if timedOut then p.(owner := TimingOut)
      else p.(owner := BeforeWait(timed))
    case TimingOut => p.(state := IDLE, owner := Awake)
  }

  function Put(p: Parker, u: nat, up: Unparker): Parker
    requires u < |p.unparkers|
  {
    p.(unparkers := p.unparkers[u := up])
  }

  /** `unpark`. */
  function UnparkerStep(p: Parker, u: nat): Parker
    requires Enabled(p, UnparkerGo(u))
  {
    match p.unparkers[u]
    case Swapping =>
      Put(p.(state := NOTIFIED), u,
          if p.state == IDLE || p.state == NOTIFIED then Resting
          else if p.state == PARKED_ON_CONDVAR then Locking
          else if p.state == PARKED_ON_DRIVER then WakingDriver
          else UnparkerPanic)
    case Locking => Put(p, u, Notifying)
    case Notifying =>
      Put(p.(owner := if p.owner.Waiting? then p.owner.(signalled := true) else p.owner), u, Resting)
    case WakingDriver => Put(p.(driverWoken := true), u, Resting)
  }

  function Step(p: Parker, e: Event): Parker
    requires Enabled(p, e)
  {
    match e
    case StartPark => p.(owner := Trying(3))
    case DriverLocked(ok) => p.(driverWoken := false, owner := if ok then Driving else Condvar(false))
    case OwnerGo => OwnerStep(p)
    case DriverReturns(flag) => p.(driverWoken := false, owner := DriverLate(flag))
    case WaitEnds(timedOut) => p.(owner := Woken(p.owner.timed, timedOut))
    case Unpark(u) => Put(p, u, Swapping)
    case UnparkerGo(u) => UnparkerStep(p, u)
  }

  ghost predicate Next(p: Parker, p': Parker) {
    exists e :: Enabled(p, e) && p' == Step(p, e)
  }

  // ----- the invariant -----

  predicate IsLocking(up: Unparker) { up.Locking? }
  predicate IsNotifying(up: Unparker) { up.Notifying? }
  predicate IsWakingDriver(up: Unparker) { up.WakingDriver? }
  predicate HasPanicked(up: Unparker) { up.UnparkerPanic? }

  /** The values `state` can have where the owner is. */
  predicate StateFits(o: Owner, state: State) {
    match o
    case Awake => state == IDLE || state == NOTIFIED
    case Trying(_) => state == IDLE || state == NOTIFIED
    case Driving => state == IDLE || state == NOTIFIED
    case DriverEarly => state == NOTIFIED
    case OnDriver => state == PARKED_ON_DRIVER || state == NOTIFIED
    case DriverLate(_) => state == PARKED_ON_DRIVER || state == NOTIFIED
    case Condvar(_) => state == IDLE || state == NOTIFIED
    case CondvarEarly => state == NOTIFIED
    case OwnerPanic => false
    case _ => state == PARKED_ON_CONDVAR || state == NOTIFIED
  }

  /** A notification the sleeping owner has not seen has a wakeup behind it:
      the unparker is still before the mutex if the owner has it, and otherwise
      the wakeup is given or about to be. */
  ghost predicate WakeupOnItsWay(p: Parker) {
    && (p.owner.BeforeWait? && p.state == NOTIFIED ==> Count(p.unparkers, IsLocking) > 0)
    && (p.owner.Waiting? && p.state == NOTIFIED ==>
          p.owner.signalled || Count(p.unparkers, IsLocking) > 0 || Count(p.unparkers, IsNotifying) > 0)
    && (p.owner.OnDriver? && p.state == NOTIFIED ==> p.driverWoken || Count(p.unparkers, IsWakingDriver) > 0)
  }

  ghost predicate Inv(p: Parker) {
    StateFits(p.owner, p.state) && WakeupOnItsWay(p) && Count(p.unparkers, HasPanicked) == 0
  }

  lemma Recount(ups: seq<Unparker>, u: nat, up: Unparker)
    requires u < |ups|
    ensures Count(ups[u := up], IsLocking) == Count(ups, IsLocking) - One(IsLocking(ups[u])) + One(IsLocking(up))
    ensures Count(ups[u := up], IsNotifying) ==
            Count(ups, IsNotifying) - One(IsNotifying(ups[u])) + One(IsNotifying(up))
    ensures Count(ups[u := up], IsWakingDriver) ==
            Count(ups, IsWakingDriver) - One(IsWakingDriver(ups[u])) + One(IsWakingDriver(up))
    ensures Count(ups[u := up], HasPanicked) ==
            Count(ups, HasPanicked) - One(HasPanicked(ups[u])) + One(HasPanicked(up))
  {
    CountUpdate(ups, u, up, IsLocking);
    CountUpdate(ups, u, up, IsNotifying);
    CountUpdate(ups, u, up, IsWakingDriver);
    CountUpdate(ups, u, up, HasPanicked);
  }

  lemma UnparkerKeepsInv(p: Parker, e: Event)
    requires Inv(p) && Enabled(p, e) && (e.Unpark? || e.UnparkerGo?)
    ensures Inv(Step(p, e))
  {
    Recount(p.unparkers, e.u, Step(p, e).unparkers[e.u]);
  }

  lemma OwnerKeepsInv(p: Parker, e: Event)
    requires Inv(p) && Enabled(p, e) && !e.Unpark? && !e.UnparkerGo?
    ensures Inv(Step(p, e))
  {
  }

  lemma InitInv(p: Parker)
    requires Init(p)
    ensures Inv(p)
  {
    CountZero(p.unparkers, HasPanicked);
  }

  lemma RunsKeepInv(run: seq<Parker>)
    requires Runs.IsRun(Init, Next, run)
    ensures forall i | 0 <= i < |run| :: Inv(run[i])
  {
    forall p | Init(p)
      ensures Inv(p)
    {
      InitInv(p);
    }
    forall p, p' | Inv(p) && Next(p, p')
      ensures Inv(p')
    {
      var e :| Enabled(p, e) && p' == Step(p, e);
      if e.Unpark? || e.UnparkerGo? {
        UnparkerKeepsInv(p, e);
      } else {
        OwnerKeepsInv(p, e);
      }
    }
    Runs.Invariance(Init, Next, Inv, run);
  }

  // ----- the theorems -----

  /** In every run neither side reaches one of its panics. */
  lemma NeverPanics(run: seq<Parker>, i: nat)
    requires Runs.IsRun(Init, Next, run) && i < |run|
    ensures !run[i].owner.OwnerPanic?
    ensures forall u | 0 <= u < |run[i].unparkers| :: !run[i].unparkers[u].UnparkerPanic?
  {
    RunsKeepInv(run);
    CountZero(run[i].unparkers, HasPanicked);
  }

  /** In every run a parked thread whose wakeup has not been given, and that no
      unparker is about to give, has no notification: no wakeup is lost. */
  lemma NoLostWakeup(run: seq<Parker>, i: nat)
    requires Runs.IsRun(Init, Next, run) && i < |run|
    requires forall u | 0 <= u < |run[i].unparkers| :: run[i].unparkers[u].Resting? || run[i].unparkers[u].Swapping?
    ensures run[i].owner.Waiting? && !run[i].owner.signalled ==> run[i].state == PARKED_ON_CONDVAR
    ensures run[i].owner.OnDriver? && !run[i].driverWoken ==> run[i].state == PARKED_ON_DRIVER
  {
    RunsKeepInv(run);
    CountZero(run[i].unparkers, IsLocking);
    CountZero(run[i].unparkers, IsNotifying);
    CountZero(run[i].unparkers, IsWakingDriver);
  }

  /** In every run a notification is used up only by the owner leaving `park`;
      that includes a timeout that overwrites one. */
  lemma NotificationEndsPark(run: seq<Parker>, i: nat)
    requires Runs.IsRun(Init, Next, run) && 0 < i < |run|
    requires run[i - 1].state == NOTIFIED && run[i].state != NOTIFIED
    ensures run[i].owner == Awake && !run[i - 1].owner.Awake?
  {
    RunsKeepInv(run);
    assert Next(run[i - 1], run[i]) && Inv(run[i - 1]) && Inv(run[i]);
  }
}
