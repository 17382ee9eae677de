/** The one-shot channel of sync/oneshot.rs with the waker cell of
    sync/atomic_waker.rs: one sender and one receiver, each taking one atomic
    operation, or one use of the value cell or the waker cell, a step. */
module Oneshot {
  import opened Options
  import Runs

  type State = nat
  const INIT: State := 0
  const SENT: State := 1
  const CLOSED: State := 2

  /** The bits of the waker cell's state. */
  const IDLE := 0
  const REGISTERING := 1
  const WAKING := 2

  type Value = nat

  /** A waker is named by the poll that brought it. */
  type Waker = nat

  datatype Sender =
    | Owned                              // not used yet
    | Writing(v: Value)                  // send: about to put the value in its cell
    | SendLoad                           // send: about to load the state
    | SendCas                            // send: saw INIT, about to compare-exchange
    | SendTake                           // send: saw CLOSED, about to take the value back
    | Dropping                           // about to swap SENT in
    | WakeOr(sent: bool)                 // take_waker: about to set WAKING
    | WakeTake(sent: bool)               // take_waker: has the cell
    | WakeAnd(sent: bool, w: Option<Waker>)   // take_waker: about to clear WAKING
    | WakeCall(sent: bool, w: Option<Waker>)  // about to call the waker
    | Gone
    | SenderPanic

  datatype Receiver =
    | Resting
    | PollLoad(k: Waker)                 // poll: about to load the state
    | RegCas(k: Waker)                   // register: about to set REGISTERING
    | RegStore(k: Waker)                 // register: has the cell, about to store the waker
    | RegRelease(k: Waker)               // register: about to clear REGISTERING
    | RegTake(k: Waker)                  // register: was interrupted, about to take the waker back
    | RegIdle(k: Waker, w: Waker)        // register: about to reset the state
    | RegWake(k: Waker, w: Waker)        // register: about to call the waker
    | Recheck(k: Waker)                  // poll: about to load the state again
    | TryLoad                            // try_recv: about to load the state
    | TakeSent                           // saw SENT, about to take the value
    | TakeClose(v: Value)                // took the value, about to store CLOSED
    | ReceiverGone
    | ReceiverPanic

  /** The fields from `polls` on are history: polls made, the poll that last
      returned Pending if no operation followed it, the wakers called, the
      values received and the value handed back by `send`, and whether `close`
      took effect. */
  datatype Channel = Channel(
    state: State,
    value: Option<Value>,
    wakerState: nat,
    waker: Option<Waker>,
    sender: Sender,
    receiver: Receiver,
    polls: nat,
    pending: Option<Waker>,
    woken: set<Waker>,
    received: seq<Value>,
    returned: Option<Value>,
    accepted: Option<Value>,
    closed: bool)

  datatype Event =
    | Send(v: Value)
    | DropSender
    | SenderGo
    | Poll
    | TryRecv
    | Close(dropped: bool)
    | ReceiverGo

  ghost predicate Init(c: Channel) {
    c == Channel(INIT, None, IDLE, None, Owned, Resting, 0, None, {}, [], None, None, false)
  }

  predicate Enabled(c: Channel, e: Event) {
    match e
    case Send(_) => c.sender.Owned?
    case DropSender => c.sender.Owned?
    case SenderGo => !c.sender.Owned? && !c.sender.Gone? && !c.sender.SenderPanic?
    case Poll => c.receiver.Resting?
    case TryRecv => c.receiver.Resting?
    case Close(_) => c.receiver.Resting?
    case ReceiverGo => !c.receiver.Resting? && !c.receiver.ReceiverGone? && !c.receiver.ReceiverPanic?
  }

  /** After `wake` comes the rest of `send` or of the drop. */
  function AfterWake(sent: bool): Sender { if sent then Dropping else Gone }

  function SenderStep(c: Channel): Channel
    requires Enabled(c, SenderGo)
  {
    match c.sender
    case Writing(v) => c.(value := Some(v), sender := SendLoad)
    case SendLoad =>
      c.(sender := if c.state == INIT then SendCas else if c.state == CLOSED then SendTake else SenderPanic)
    case SendCas =>
      if c.state == INIT then c.(state := SENT, accepted := c.value, sender := WakeOr(true)) else c.(sender := SendLoad)
    case SendTake =>
      if c.value.Some? then c.(value := None, returned := c.value, sender := Dropping) else c.(sender := SenderPanic)
    case Dropping =>
      c.(state := SENT, sender := if c.state == INIT then WakeOr(false) else Gone)
    case WakeOr(sent) =>
      c.(wakerState := if c.wakerState == IDLE then WAKING
                       else if c.wakerState == REGISTERING then REGISTERING + WAKING
                       else c.wakerState,
         sender := if c.wakerState == IDLE then WakeTake(sent) else AfterWake(sent))
    case WakeTake(sent) => c.(waker := None, sender := WakeAnd(sent, c.waker))
    case WakeAnd(sent, w) =>
      c.(wakerState := if c.wakerState >= WAKING then c.wakerState - WAKING else c.wakerState,
         sender := WakeCall(sent, w))
    case WakeCall(sent, w) =>
      c.(woken := if w.Some? then c.woken + {w.value} else c.woken, sender := AfterWake(sent))
  }

  function ReceiverStep(c: Channel): Channel
    requires Enabled(c, ReceiverGo)
  {
    match c.receiver
    case PollLoad(k) =>
      c.(receiver := if c.state == INIT then RegCas(k) else if c.state == SENT then TakeSent
                     else if c.state == CLOSED then Resting else ReceiverPanic)
    case RegCas(k) =>
      if c.wakerState == IDLE then c.(wakerState := REGISTERING, receiver := RegStore(k))
      else if c.wakerState == WAKING then c.(woken := c.woken + {k}, receiver := Recheck(k))
      else c.(receiver := Recheck(k))
    case RegStore(k) => c.(waker := Some(k), receiver := RegRelease(k))
    case RegRelease(k) =>
      if c.wakerState == REGISTERING then c.(wakerState := IDLE, receiver := Recheck(k)) else c.(receiver := RegTake(k))
    case RegTake(k) =>
      if c.waker.Some? then c.(waker := None, receiver := RegIdle(k, c.waker.value)) else c.(receiver := ReceiverPanic)
    case RegIdle(k, w) => c.(wakerState := IDLE, receiver := RegWake(k, w))
    case RegWake(k, w) => c.(woken := c.woken + {w}, receiver := Recheck(k))
    case Recheck(k) =>
      if c.state == SENT then c.(receiver := TakeSent) else c.(pending := Some(k), receiver := Resting)
    case TryLoad =>
      c.(receiver := if c.state == INIT then Resting else if c.state == SENT then TakeSent
                     else if c.state == CLOSED then Resting else ReceiverPanic)
    case TakeSent =>
      if c.value.Some? then c.(value := None, receiver := TakeClose(c.value.value)) else c.(receiver := Resting)
    case TakeClose(v) => c.(state := CLOSED, received := c.received + [v], receiver := Resting)
  }

  function Step(c: Channel, e: Event): Channel
    requires Enabled(c, e)
  {
    match e
    case Send(v) => c.(sender := Writing(v))
    case DropSender => c.(sender := Dropping)
    case SenderGo => SenderStep(c)
    case Poll => c.(polls := c.polls + 1, pending := None, receiver := PollLoad(c.polls))
    case TryRecv => c.(receiver := TryLoad)
    case Close(dropped) =>
      c.(state := if c.state == INIT then CLOSED else c.state,
         closed := c.closed || c.state == INIT,
         receiver := if dropped then ReceiverGone else Resting)
    case ReceiverGo => ReceiverStep(c)
  }

  ghost predicate Next(c: Channel, c': Channel) {
    exists e :: Enabled(c, e) && c' == Step(c, e)
  }

  // ----- the invariant -----

  /** The sender has not yet set the state. */
  predicate Before(s: Sender) {
    s.Owned? || s.Writing? || s.SendLoad? || s.SendCas? || s.SendTake? || s.Dropping?
  }

  predicate InWake(s: Sender) { s.WakeOr? || s.WakeTake? || s.WakeAnd? || s.WakeCall? }

  /** The receiver is in a poll that found the channel open. */
  predicate InPoll(r: Receiver) {
    r.RegCas? || r.RegStore? || r.RegRelease? || r.RegTake? || r.RegIdle? || r.RegWake? || r.Recheck?
  }

  predicate InRegister(r: Receiver) { r.RegStore? || r.RegRelease? || r.RegTake? || r.RegIdle? }

  /** The sender uses the value cell in its next step; likewise the receiver,
      and likewise for the waker cell. */
  predicate SenderUsesValue(s: Sender) { s.Writing? || s.SendTake? }
  predicate ReceiverUsesValue(r: Receiver) { r.TakeSent? }
  predicate SenderUsesWaker(s: Sender) { s.WakeTake? }
  predicate ReceiverUsesWaker(r: Receiver) { r.RegStore? || r.RegTake? }

  /** The bits of the waker cell say who has it. */
  ghost predicate WakerStateFits(c: Channel) {
    && (c.sender.WakeTake? || c.sender.WakeAnd? ==> c.wakerState == WAKING && !InRegister(c.receiver))
    && (!c.sender.WakeTake? && !c.sender.WakeAnd? && !InRegister(c.receiver) ==> c.wakerState == IDLE)
    && (c.receiver.RegStore? || c.receiver.RegRelease? ==>
          c.wakerState == REGISTERING || c.wakerState == REGISTERING + WAKING)
    && (c.receiver.RegTake? || c.receiver.RegIdle? ==> c.wakerState == REGISTERING + WAKING)
    && (c.receiver.RegRelease? || c.receiver.RegTake? ==> c.waker == Some(c.receiver.k))
    && (c.wakerState == REGISTERING + WAKING ==> !Before(c.sender) || c.accepted.Some?)
  }

  /** The state, given where the two sides are. */
  ghost predicate StateFits(c: Channel) {
    && (c.state == INIT || c.state == SENT || c.state == CLOSED)
    && !c.sender.SenderPanic? && !c.receiver.ReceiverPanic?
    && (c.state == INIT ==> Before(c.sender) && c.accepted.None? && c.received == [] && !c.closed)
    && (Before(c.sender) && c.accepted.None? && c.state != INIT ==> c.state == CLOSED && c.closed)
    && (c.accepted.Some? ==> c.sender.Dropping? || InWake(c.sender) || c.sender.Gone?)
    && (InWake(c.sender) ==> !c.closed && c.sender.sent == c.accepted.Some?)
    && (c.receiver.TakeSent? || c.receiver.TakeClose? ==> c.state == SENT)
    && (InPoll(c.receiver) ==> c.state != CLOSED && !c.closed)
    && (c.accepted.Some? && c.received == [] ==> c.state == SENT)
    && (c.receiver.RegTake? || c.receiver.RegIdle? || c.receiver.RegWake? ==> c.state == SENT)
  }

  /** The value is in exactly one place. */
  ghost predicate ValueFits(c: Channel) {
    && (c.sender.SendLoad? || c.sender.SendCas? || c.sender.SendTake? ==>
          c.value.Some? && c.received == [] && c.returned.None? && !c.receiver.TakeClose?)
    && (c.sender.SendTake? ==> c.state == CLOSED)
    && (c.accepted.Some? ==>
          && c.returned.None?
          && c.received + (if c.receiver.TakeClose? then [c.receiver.v] else []) +
             (if c.value.Some? then [c.value.value] else []) == [c.accepted.value])
    && (c.returned.Some? ==> c.state != INIT && c.accepted.None? && (c.sender.Dropping? || c.sender.Gone?))
    && (c.accepted.None? ==> c.received == [] && !c.receiver.TakeClose?)
    && (c.accepted.None? && !c.sender.SendLoad? && !c.sender.SendCas? && !c.sender.SendTake? ==> c.value.None?)
  }

  /** A poll that returned Pending has left its waker in the cell, and once the
      sender has set the state that waker is on its way to being called. */
  ghost predicate WakeFits(c: Channel) {
    && (c.state == INIT || c.closed ==> c.woken == {})
    && (c.pending.Some? ==> !InPoll(c.receiver) && !c.receiver.PollLoad?)
    && (c.receiver.Recheck? && c.state == INIT ==> c.waker == Some(c.receiver.k))
    && (c.pending.Some? && c.state == INIT ==> c.waker == c.pending)
    && (c.pending.Some? && c.state != INIT && !c.closed ==>
          || c.pending.value in c.woken
          || ((c.sender.WakeOr? || c.sender.WakeTake?) && c.waker == c.pending)
          || ((c.sender.WakeAnd? || c.sender.WakeCall?) && c.sender.w == c.pending))
  }

  ghost predicate Inv(c: Channel) {
    WakerStateFits(c) && StateFits(c) && ValueFits(c) && WakeFits(c)
  }

  // One lemma for each part of an operation.

  lemma SendKeepsInv(c: Channel)
    requires Inv(c) && Enabled(c, SenderGo) && Before(c.sender)
    ensures Inv(SenderStep(c))
  {
  }

  lemma WakeKeepsInv(c: Channel)
    requires Inv(c) && Enabled(c, SenderGo) && InWake(c.sender)
    ensures Inv(SenderStep(c))
  {
  }

  lemma LoadKeepsInv(c: Channel)
    requires Inv(c) && (c.receiver.PollLoad? || c.receiver.TryLoad? || c.receiver.Recheck?)
    ensures Inv(ReceiverStep(c))
  {
  }

  lemma RegisterKeepsInv(c: Channel)
    requires Inv(c) && (c.receiver.RegCas? || c.receiver.RegStore? || c.receiver.RegRelease?)
    ensures Inv(ReceiverStep(c))
  {
  }

  lemma InterruptedKeepsInv(c: Channel)
    requires Inv(c) && (c.receiver.RegTake? || c.receiver.RegIdle? || c.receiver.RegWake?)
    ensures Inv(ReceiverStep(c))
  {
  }

  lemma TakeKeepsInv(c: Channel)
    requires Inv(c) && (c.receiver.TakeSent? || c.receiver.TakeClose?)
    ensures Inv(ReceiverStep(c))
  {
  }

  lemma CallKeepsInv(c: Channel, e: Event)
    requires Inv(c) && Enabled(c, e) && !e.SenderGo? && !e.ReceiverGo?
    ensures Inv(Step(c, e))
  {
  }

  lemma StepKeepsInv(c: Channel, e: Event)
    requires Inv(c) && Enabled(c, e)
    ensures Inv(Step(c, e))
  {
    if e.SenderGo? {
      if InWake(c.sender) {
        WakeKeepsInv(c);
      } else {
        SendKeepsInv(c);
      }
    } else if !e.ReceiverGo? {
      CallKeepsInv(c, e);
    } else {
      match c.receiver
      case PollLoad(_) => LoadKeepsInv(c);
      case TryLoad => LoadKeepsInv(c);
      case Recheck(_) => LoadKeepsInv(c);
      case RegCas(_) => RegisterKeepsInv(c);
      case RegStore(_) => RegisterKeepsInv(c);
      case RegRelease(_) => RegisterKeepsInv(c);
      case RegTake(_) => InterruptedKeepsInv(c);
      case RegIdle(_, _) => InterruptedKeepsInv(c);
      case RegWake(_, _) => InterruptedKeepsInv(c);
      case TakeSent => TakeKeepsInv(c);
      case TakeClose(_) => TakeKeepsInv(c);
    }
  }

  lemma RunsKeepInv(run: seq<Channel>)
    requires Runs.IsRun(Init, Next, run)
    ensures forall i | 0 <= i < |run| :: Inv(run[i])
  {
    forall c, c' | Inv(c) && Next(c, c')
      ensures Inv(c')
    {
      var e :| Enabled(c, e) && c' == Step(c, e);
      StepKeepsInv(c, e);
    }
    Runs.Invariance(Init, Next, Inv, run);
  }

  // ----- the theorems -----

  /** In every run the sender and the receiver are never both about to use the
      value cell, nor both about to use the waker cell: neither of the two
      unsynchronised cells is ever borrowed twice. */
  lemma CellsExclusive(run: seq<Channel>, i: nat)
    requires Runs.IsRun(Init, Next, run) && i < |run|
    ensures !(SenderUsesValue(run[i].sender) && ReceiverUsesValue(run[i].receiver))
    ensures !(SenderUsesWaker(run[i].sender) && ReceiverUsesWaker(run[i].receiver))
  {
    RunsKeepInv(run);
  }

  /** In every run the `unreachable!` branches and the failing unwraps of both
      sides are not reached. */
  lemma NeverPanics(run: seq<Channel>, i: nat)
    requires Runs.IsRun(Init, Next, run) && i < |run|
    ensures !run[i].sender.SenderPanic? && !run[i].receiver.ReceiverPanic?
  {
    RunsKeepInv(run);
  }

  /** In every run, once the sender is gone, the waker of a poll that returned
      Pending and was the receiver's last poll has been called exactly when the
      receiver had not closed the channel first. */
  lemma PendingPollWokenIff(run: seq<Channel>, i: nat)
    requires Runs.IsRun(Init, Next, run) && i < |run|
    requires run[i].sender.Gone? && run[i].pending.Some?
    ensures run[i].pending.value in run[i].woken <==> !run[i].closed
  {
    RunsKeepInv(run);
  }

  lemma Take(run: seq<Channel>, c: Channel, e: Event) returns (longer: seq<Channel>, c': Channel)
    requires Runs.IsRun(Init, Next, run) && run[|run| - 1] == c && Enabled(c, e)
    ensures Runs.IsRun(Init, Next, longer) && longer[|longer| - 1] == c'
    ensures c' == Step(c, e)
  {
    c' := Step(c, e);
    assert Next(c, c');
    Runs.Extend(Init, Next, run, c');
    longer := run + [c'];
  }

  /** The receiver's poll returns Pending, it closes the channel, and the sender
      leaves without calling the waker. */
  lemma ClosedPollNotWoken() returns (run: seq<Channel>, c: Channel)
    ensures Runs.IsRun(Init, Next, run) && run[|run| - 1] == c
    ensures c.sender.Gone? && c.pending == Some(0) && c.closed && c.woken == {}
  {
    c := Channel(INIT, None, IDLE, None, Owned, Resting, 0, None, {}, [], None, None, false);
    run := [c];
    run, c := Take(run, c, Poll);
    run, c := Take(run, c, ReceiverGo);
    run, c := Take(run, c, ReceiverGo);
    run, c := Take(run, c, ReceiverGo);
    run, c := Take(run, c, ReceiverGo);
    run, c := Take(run, c, ReceiverGo);
    run, c := Take(run, c, Close(false));
    run, c := Take(run, c, DropSender);
    run, c := Take(run, c, SenderGo);
  }

  /** In every run a value that `send` accepted is received at most once and is
      otherwise still in the channel; a value `send` gave back is never
      received; and nothing is received that was not accepted. */
  lemma DeliveredAtMostOnce(run: seq<Channel>, i: nat)
    requires Runs.IsRun(Init, Next, run) && i < |run|
    ensures run[i].returned.Some? ==> run[i].accepted.None? && run[i].received == []
    ensures run[i].received == [] || run[i].accepted == Some(run[i].received[0])
    ensures |run[i].received| <= 1
    ensures run[i].accepted.Some? && run[i].received == [] ==>
      run[i].value == run[i].accepted || run[i].receiver == TakeClose(run[i].accepted.value)
  {
    RunsKeepInv(run);
    assert Inv(run[i]);
    var c := run[i];
    var held := if c.receiver.TakeClose? then [c.receiver.v] else [];
    var left := if c.value.Some? then [c.value.value] else [];
    if c.accepted.Some? {
      assert c.received + held + left == [c.accepted.value];
      assert |c.received| + |held| + |left| == 1;
      if c.received == [] && held != [] {
        assert (c.received + held + left)[0] == held[0];
      } else if c.received == [] {
        assert (c.received + held + left)[0] == left[0];
      } else {
        assert (c.received + held + left)[0] == c.received[0];
      }
    }
  }

  /** In every run a receiver that asks after a send was accepted, and has not
      received the value yet, gets it: it finds SENT with the value there. */
  lemma AcceptedIsAvailable(run: seq<Channel>, i: nat)
    requires Runs.IsRun(Init, Next, run) && i < |run|
    requires run[i].accepted.Some? && run[i].received == []
    requires run[i].receiver.PollLoad? || run[i].receiver.TryLoad? || run[i].receiver.TakeSent?
    ensures run[i].state == SENT && run[i].value == run[i].accepted
  {
    RunsKeepInv(run);
    DeliveredAtMostOnce(run, i);
  }
}
