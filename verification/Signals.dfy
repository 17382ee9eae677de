/** Signal registration of ylong_signal/src/common.rs and the signal handler of
    ylong_signal/src/unix.rs.  Both shared locks are used through what module
    SpinRwLock proves of them: a register whose reads return its value or the
    value of a store in progress.  The write lock of the signal map serialises
    registrations and deregistrations, so one registrar is modelled.  The
    operating system's table of actions is a map, and its calls may fail.  After
    the start nobody else in the process changes that table. */
module Signals {
  import opened Options
  import opened SpinRwLock
  import Runs

  type Sig = nat
  type Handler = nat

  /** An entry of the operating system's table; `Ours` is `sig_handler`. */
  datatype Action = Default | Ignore | Function(f: nat) | Ours

  /** `Signal`: the action replaced at registration and the action registered. */
  datatype Entry = Entry(oldAct: Action, newAct: Option<Handler>)

  type Table = map<Sig, Entry>
  type Fallback = Option<(Sig, Action)>

  /** SIGSEGV, SIGKILL, SIGSTOP, SIGILL and SIGFPE. */
  const SIGNAL_BLOCK_LIST: set<Sig> := {11, 9, 19, 4, 8}

  /** The thread that holds the write guard of the signal map. */
  datatype Registrar =
    | Nobody
    | Registering(sig: Sig, handler: Handler)                 // about to look the signal up
    | RaceBegin(sig: Sig, handler: Handler, oldAct: Action)    // about to store the fallback
    | RaceEnd(sig: Sig, handler: Handler, oldAct: Action)      // the fallback store is in progress
    | Swapping(sig: Sig, handler: Handler)                     // about to install sig_handler
    | Unregistering(sig: Sig, hook: bool)                      // about to restore an action
    | Publishing(table: Table)                                 // about to store the new map
    | Published                                                // the map store is in progress

  /** What running the handler came to. */
  datatype Outcome = CalledNew(handler: Handler) | CalledOld(f: nat) | Nothing

  /** A thread running `sig_handler`; `sure` says that the signal was registered
      when it was delivered and has not been deregistered since. */
  datatype Delivery =
    | Quiet
    | Delivered(sig: Sig, sure: bool)
    | RaceRead(sig: Sig, sure: bool, fallback: Fallback)
    | Handled(sig: Sig, sure: bool, outcome: Outcome)

  /** `registered` is history: the registrations in force, from the moment
      `sig_handler` is installed to the moment another action replaces it. */
  datatype Sys = Sys(
    os: map<Sig, Action>,
    table: Register<Table>,
    race: Register<Fallback>,
    registrar: Registrar,
    deliveries: seq<Delivery>,
    registered: Table)

  datatype Event =
    | RegisterAction(sig: Sig, handler: Handler)
    | Deregister(sig: Sig, hook: bool)
    | RegistrarGo(osFails: bool)
    | Deliver(t: nat, sig: Sig)
    | ReadRace(t: nat, seen: Fallback)
    | ReadTable(t: nat, view: Table)
    | Return(t: nat)

  ghost predicate Init(s: Sys) {
    && s.os.Values !! {Ours}
    && s.table == Register(map[], None) && s.race == Register(None, None)
    && s.registrar == Nobody && s.registered == map[]
    && forall t | 0 <= t < |s.deliveries| :: s.deliveries[t] == Quiet
  }

  function OsAction(os: map<Sig, Action>, sig: Sig): Action {
    if sig in os then os[sig] else Default
  }

  /** `execute_act`: the default action and ignoring a signal come to nothing. */
  function ExecuteAct(act: Action): Outcome {
    if act.Function? then CalledOld(act.f) else Nothing
  }

  /** The end of `sig_handler`: the registered action, else the fallback. */
  function Handle(sig: Sig, view: Table, fallback: Fallback): Outcome {
    if sig in view
    then (if view[sig].newAct.Some? then CalledNew(view[sig].newAct.value) else Nothing)
    else if fallback.Some? && fallback.value.0 == sig
    then ExecuteAct(fallback.value.1)
    else Nothing
  }

  predicate Enabled(s: Sys, e: Event) {
    match e
    case RegisterAction(sig, _) => s.registrar.Nobody? && sig !in SIGNAL_BLOCK_LIST
    case Deregister(_, _) => s.registrar.Nobody?
    case RegistrarGo(_) =>
      && !s.registrar.Nobody?
      && (s.registrar.Published? ==> s.table.storing.Some?)
      && (s.registrar.RaceEnd? ==> s.race.storing.Some?)
    case Deliver(t, sig) => t < |s.deliveries| && s.deliveries[t].Quiet? && OsAction(s.os, sig) == Ours
    case ReadRace(t, seen) => t < |s.deliveries| && s.deliveries[t].Delivered? && Readable(s.race, seen)
    case ReadTable(t, view) => t < |s.deliveries| && s.deliveries[t].RaceRead? && Readable(s.table, view)
    case Return(t) => t < |s.deliveries| && s.deliveries[t].Handled?
  }

  /** `register_action`, `deregister_action` and `deregister_hook`, step by step. */
  function RegistrarStep(s: Sys, osFails: bool): Sys
    requires Enabled(s, RegistrarGo(osFails))
  {
    match s.registrar
    case Registering(sig, handler) =>
      if sig in s.table.value
      then (if s.table.value[sig].newAct.Some?
            then s.(registrar := Nobody)
            else s.(registrar := Publishing(s.table.value[sig := s.table.value[sig].(newAct := Some(handler))])))
      else if osFails
      then s.(registrar := Nobody)
      else s.(registrar := RaceBegin(sig, handler, OsAction(s.os, sig)))
    case RaceBegin(sig, handler, oldAct) =>
      s.(race := BeginStore(s.race, Some((sig, oldAct))), registrar := RaceEnd(sig, handler, oldAct))
    case RaceEnd(sig, handler, _) =>
      s.(race := EndStore(s.race), registrar := Swapping(sig, handler))
    case Swapping(sig, handler) =>
      if osFails
      then s.(registrar := Nobody)
      else var signal := Entry(OsAction(s.os, sig), Some(handler));
           s.(os := s.os[sig := Ours],
              registered := s.registered[sig := signal],
              registrar := Publishing(s.table.value[sig := signal]))
    case Unregistering(sig, hook) =>
      if !hook && sig !in s.table.value
      then s.(registrar := Publishing(s.table.value))
      else if osFails
      then s.(registrar := Nobody)
      else s.(os := s.os[sig := if hook then Default else s.table.value[sig].oldAct],
              registered := s.registered - {sig},
              deliveries := Doubt(s.deliveries, sig),
              registrar := Publishing(s.table.value - {sig}))
    case Publishing(table) =>
      s.(table := BeginStore(s.table, table), registrar := Published)
    case Published =>
      s.(table := EndStore(s.table), registrar := Nobody)
  }

  /** Deliveries of a signal being deregistered promise nothing any more. */
  function Doubt(deliveries: seq<Delivery>, sig: Sig): (r: seq<Delivery>)
    ensures |r| == |deliveries|
    ensures forall t | 0 <= t < |r| ::
      r[t] == if !deliveries[t].Quiet? && deliveries[t].sig == sig then deliveries[t].(sure := false) else deliveries[t]
  {
    seq(|deliveries|, t requires 0 <= t < |deliveries| =>
      if !deliveries[t].Quiet? && deliveries[t].sig == sig then deliveries[t].(sure := false) else deliveries[t])
  }

  function Step(s: Sys, e: Event): Sys
    requires Enabled(s, e)
  {
    match e
    case RegisterAction(sig, handler) => s.(registrar := Registering(sig, handler))
    case Deregister(sig, hook) => s.(registrar := Unregistering(sig, hook))
    case RegistrarGo(osFails) => RegistrarStep(s, osFails)
    case Deliver(t, sig) => Put(s, t, Delivered(sig, sig in s.registered))
    case ReadRace(t, seen) => Put(s, t, RaceRead(s.deliveries[t].sig, s.deliveries[t].sure, seen))
    case ReadTable(t, view) =>
      var d := s.deliveries[t];
      Put(s, t, Handled(d.sig, d.sure, Handle(d.sig, view, d.fallback)))
    case Return(t) => Put(s, t, Quiet)
  }

  function Put(s: Sys, t: nat, d: Delivery): Sys
    requires t < |s.deliveries|
  {
    s.(deliveries := s.deliveries[t := d])
  }

  ghost predicate Next(s: Sys, s': Sys) {
    exists e :: Enabled(s, e) && s' == Step(s, e)
  }

  // ----- the invariant -----

  /** The signal whose handler is installed but whose entry is not yet in the map. */
  ghost predicate Unpublished(s: Sys, sig: Sig) {
    && sig in s.registered && sig !in s.table.value
    && s.race == Register(Some((sig, s.registered[sig].oldAct)), None)
    && (s.registrar.Publishing? || s.registrar.Published?)
  }

  /** A map that has every registration in force. */
  ghost predicate Covers(table: Table, registered: Table) {
    forall sig | sig in registered :: sig in table && table[sig] == registered[sig]
  }

  /** Every entry has an action, and replaced one that was not our own. */
  ghost predicate Sound(table: Table) {
    forall sig | sig in table :: table[sig].newAct.Some? && table[sig].oldAct != Ours
  }

  ghost predicate RegistrarHolds(s: Sys) {
    match s.registrar
    case RaceBegin(sig, _, oldAct) => sig !in s.table.value && oldAct == OsAction(s.os, sig)
    case RaceEnd(sig, _, oldAct) =>
      sig !in s.table.value && oldAct == OsAction(s.os, sig) && s.race.storing == Some(Some((sig, oldAct)))
    case Swapping(sig, _) => sig !in s.table.value && s.race.value == Some((sig, OsAction(s.os, sig)))
    case Publishing(table) => Covers(table, s.registered) && Sound(table)
    case Published =>
      s.table.storing.Some? && Covers(s.table.storing.value, s.registered) && Sound(s.table.storing.value)
    case _ => true
  }

  ghost predicate RegistrationsHold(s: Sys) {
    && (forall sig :: sig in s.registered <==> OsAction(s.os, sig) == Ours)
    && Sound(s.registered) && Sound(s.table.value)
    && (forall sig | sig in s.registered ::
          (sig in s.table.value && s.table.value[sig] == s.registered[sig]) || Unpublished(s, sig))
    && (!s.registrar.Published? ==> s.table.storing.None?)
    && (!s.registrar.RaceEnd? ==> s.race.storing.None?)
    && RegistrarHolds(s)
  }

  ghost predicate DeliveryHolds(s: Sys, d: Delivery) {
    match d
    case Quiet => true
    case Delivered(sig, sure) => sure ==> sig in s.registered
    case RaceRead(sig, sure, fallback) =>
      sure ==> sig in s.registered && (fallback == Some((sig, s.registered[sig].oldAct)) || sig in s.table.value)
    case Handled(_, _, _) => true
  }

  ghost predicate Inv(s: Sys) {
    && RegistrationsHold(s)
    && (forall t | 0 <= t < |s.deliveries| :: DeliveryHolds(s, s.deliveries[t]))
  }

  /** While no map is being published, the map has every registration in force. */
  lemma QuietTableCovers(s: Sys)
    requires RegistrationsHold(s) && !s.registrar.Publishing? && !s.registrar.Published?
    ensures Covers(s.table.value, s.registered)
  {
  }

  lemma LookupKeeps(s: Sys, osFails: bool)
    requires RegistrationsHold(s) && s.registrar.Registering?
    ensures RegistrationsHold(RegistrarStep(s, osFails))
  {
    QuietTableCovers(s);
  }

  lemma RaceKeeps(s: Sys, osFails: bool)
    requires RegistrationsHold(s) && (s.registrar.RaceBegin? || s.registrar.RaceEnd?)
    ensures RegistrationsHold(RegistrarStep(s, osFails))
  {
    QuietTableCovers(s);
  }

  lemma SwapKeeps(s: Sys, osFails: bool)
    requires RegistrationsHold(s) && s.registrar.Swapping?
    ensures RegistrationsHold(RegistrarStep(s, osFails))
  {
    QuietTableCovers(s);
  }

  lemma UnregisterKeeps(s: Sys, osFails: bool)
    requires RegistrationsHold(s) && s.registrar.Unregistering?
    ensures RegistrationsHold(RegistrarStep(s, osFails))
  {
    QuietTableCovers(s);
  }

  lemma PublishKeeps(s: Sys, osFails: bool)
    requires RegistrationsHold(s) && (s.registrar.Publishing? || s.registrar.Published?)
    ensures RegistrationsHold(RegistrarStep(s, osFails))
  {
  }

  lemma RegistrarKeeps(s: Sys, osFails: bool)
    requires RegistrationsHold(s) && Enabled(s, RegistrarGo(osFails))
    ensures RegistrationsHold(RegistrarStep(s, osFails))
  {
    match s.registrar
    case Registering(_, _) => LookupKeeps(s, osFails);
    case RaceBegin(_, _, _) => RaceKeeps(s, osFails);
    case RaceEnd(_, _, _) => RaceKeeps(s, osFails);
    case Swapping(_, _) => SwapKeeps(s, osFails);
    case Unregistering(_, _) => UnregisterKeeps(s, osFails);
    case Publishing(_) => PublishKeeps(s, osFails);
    case Published => PublishKeeps(s, osFails);
  }

  /** What a registrar's step does to a delivery that is still sure. */
  lemma RegistrarKeepsDelivery(s: Sys, osFails: bool, t: nat)
    requires RegistrationsHold(s) && Enabled(s, RegistrarGo(osFails))
    requires t < |s.deliveries| && DeliveryHolds(s, s.deliveries[t])
    ensures |RegistrarStep(s, osFails).deliveries| == |s.deliveries|
    ensures DeliveryHolds(RegistrarStep(s, osFails), RegistrarStep(s, osFails).deliveries[t])
  {
    if s.registrar.Swapping? {
      QuietTableCovers(s);
    }
  }

  /** Reading the fallback before the map: the fallback read is that of the
      delivered signal, or its entry is already in the map. */
  lemma RaceReadHolds(s: Sys, sig: Sig, seen: Fallback)
    requires RegistrationsHold(s) && sig in s.registered && Readable(s.race, seen)
    ensures seen == Some((sig, s.registered[sig].oldAct)) || sig in s.table.value
  {
  }

  lemma StepKeepsInv(s: Sys, e: Event)
    requires Inv(s) && Enabled(s, e)
    ensures Inv(Step(s, e))
  {
    if e.RegistrarGo? {
      RegistrarKeeps(s, e.osFails);
      forall t | 0 <= t < |s.deliveries|
        ensures |Step(s, e).deliveries| == |s.deliveries| && DeliveryHolds(Step(s, e), Step(s, e).deliveries[t])
      {
        RegistrarKeepsDelivery(s, e.osFails, t);
      }
    } else if e.ReadRace? {
      if s.deliveries[e.t].sure {
        RaceReadHolds(s, s.deliveries[e.t].sig, e.seen);
      }
    }
  }

  lemma RunsKeepInv(run: seq<Sys>)
    requires Runs.IsRun(Init, Next, run)
    ensures forall i | 0 <= i < |run| :: Inv(run[i])
  {
    forall s, s' | Inv(s) && Next(s, s')
      ensures Inv(s')
    {
      var e :| Enabled(s, e) && s' == Step(s, e);
      StepKeepsInv(s, e);
    }
    Runs.Invariance(Init, Next, Inv, run);
  }

  // ----- the theorems -----

  /** Thread t is running `sig_handler` for sig and has not finished. */
  predicate InFlight(s: Sys, t: nat, sig: Sig) {
    t < |s.deliveries| && (s.deliveries[t].Delivered? || s.deliveries[t].RaceRead?) && s.deliveries[t].sig == sig
  }

  /** A delivery under way is sure as long as its signal stays registered. */
  lemma StaysSure(s: Sys, s': Sys, t: nat, sig: Sig)
    requires Next(s, s') && sig in s'.registered && InFlight(s', t, sig)
    requires || (InFlight(s, t, sig) && s.deliveries[t].sure)
             || (t < |s.deliveries| && s.deliveries[t].Quiet? && sig in s.registered)
    ensures s'.deliveries[t].sure
  {
    var e :| Enabled(s, e) && s' == Step(s, e);
    if e.RegistrarGo? && !s.registrar.Unregistering? {
      assert s'.deliveries == s.deliveries;
    }
  }

  lemma {:induction false} SureThroughout(run: seq<Sys>, i: nat, k: nat, t: nat, sig: Sig)
    requires Runs.IsRun(Init, Next, run) && 0 < i <= k < |run|
    requires t < |run[i - 1].deliveries| && run[i - 1].deliveries[t].Quiet? && sig in run[i - 1].registered
    requires forall n | i <= n <= k :: InFlight(run[n], t, sig) && sig in run[n].registered
    ensures InFlight(run[k], t, sig) && run[k].deliveries[t].sure
  {
    if k > i {
      SureThroughout(run, i, k - 1, t, sig);
    }
    assert Next(run[k - 1], run[k]);
    assert InFlight(run[k], t, sig) && sig in run[k].registered;
    StaysSure(run[k - 1], run[k], t, sig);
  }

  /** What one look at the map comes to. */
  lemma HandleOutcome(s: Sys, t: nat, view: Table)
    requires Inv(s) && Enabled(s, ReadTable(t, view)) && s.deliveries[t].sure
    ensures var d := s.deliveries[t];
      && d.sig in s.registered && s.registered[d.sig].newAct.Some?
      && (Handle(d.sig, view, d.fallback) == CalledNew(s.registered[d.sig].newAct.value) ||
          (d.sig !in s.table.value && Handle(d.sig, view, d.fallback) == ExecuteAct(s.registered[d.sig].oldAct)))
  {
    assert DeliveryHolds(s, s.deliveries[t]);
  }

  lemma OnlyReadTableHandles(s: Sys, e: Event, t: nat)
    requires Enabled(s, e) && t < |s.deliveries|
    ensures t < |Step(s, e).deliveries|
    ensures Step(s, e).deliveries[t].Handled? && !s.deliveries[t].Handled? ==>
      e.ReadTable? && e.t == t && s.deliveries[t].RaceRead? &&
      Step(s, e).deliveries[t].outcome == Handle(s.deliveries[t].sig, e.view, s.deliveries[t].fallback)
  {
    if e.RegistrarGo? && !s.registrar.Unregistering? {
      assert Step(s, e).deliveries == s.deliveries;
    }
  }

  /** What a sure delivery of a registered signal may come to. */
  ghost predicate Served(s: Sys, sig: Sig, outcome: Outcome) {
    && sig in s.registered && s.registered[sig].newAct.Some?
    && (|| outcome == CalledNew(s.registered[sig].newAct.value)
        || (sig !in s.table.value && outcome == ExecuteAct(s.registered[sig].oldAct)))
    && (outcome.Nothing? ==> s.registered[sig].oldAct.Default? || s.registered[sig].oldAct.Ignore?)
  }

  lemma EndsServed(s: Sys, s': Sys, t: nat, sig: Sig)
    requires Inv(s) && Next(s, s') && InFlight(s, t, sig) && s.deliveries[t].sure
    requires t < |s'.deliveries| && s'.deliveries[t].Handled?
    ensures Served(s, sig, s'.deliveries[t].outcome)
  {
    var e :| Enabled(s, e) && s' == Step(s, e);
    OnlyReadTableHandles(s, e, t);
    HandleOutcome(s, t, e.view);
  }

  /** In every run a delivery of a signal that stays registered from delivery to
      the end runs the action registered for it, or, while that registration is
      not yet in the map, the action it replaced; other registrations and
      deregistrations in between make no difference.  Nothing at all is run only
      if the action replaced was the default one or to ignore the signal. */
  lemma NoSignalFallsThrough(run: seq<Sys>, i: nat, j: nat, t: nat, sig: Sig)
    requires Runs.IsRun(Init, Next, run) && 0 < i < j < |run|
    requires t < |run[i - 1].deliveries| && run[i - 1].deliveries[t].Quiet?
    requires forall n | i <= n < j :: InFlight(run[n], t, sig)
    requires forall n | i - 1 <= n < j :: sig in run[n].registered
    requires t < |run[j].deliveries| && run[j].deliveries[t].Handled?
    ensures Served(run[j - 1], sig, run[j].deliveries[t].outcome)
  {
    var s, s' := run[j - 1], run[j];
    assert InFlight(s, t, sig) && s.deliveries[t].sure by {
      assert sig in run[i - 1].registered;
      SureThroughout(run, i, j - 1, t, sig);
    }
    assert Inv(s) by {
      RunsKeepInv(run);
    }
    EndsServed(s, s', t, sig);
  }

  /** In every run `sig_handler` is installed for exactly the registered
      signals, and no registration has recorded `sig_handler` itself as the
      action to fall back to. */
  lemma HandlerInstalledIff(run: seq<Sys>, i: nat, sig: Sig)
    requires Runs.IsRun(Init, Next, run) && i < |run|
    ensures sig in run[i].registered <==> OsAction(run[i].os, sig) == Ours
    ensures sig in run[i].registered ==> run[i].registered[sig].oldAct != Ours
  {
    RunsKeepInv(run);
  }
}
