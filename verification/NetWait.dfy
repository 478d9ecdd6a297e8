/** Waiting for a descriptor with an optional timeout (src/netpoll.c, src/netpoll_epoll.c,
    include/inter/refcnt.h): the waiting coroutine, the timer daemon and any number of polling threads
    race on one `coroc_poll_desc`.

    One action is one atomic access, one lock operation or one kernel call.  The kernel may report an
    event of a registered descriptor at any time and any number of times; the poller that receives it
    keeps the pointer and tries the CAS on `done` later.  The timer may expire at any time while it is pending.
    Fields that no proof here depends on (`fd`, the values of `mode`) are not modelled. */
module NetWait {
  import opened Common

  /** The progress of coroc_net_wait / coroc_net_timedwait. */
  datatype WaiterPc =
    | TakeTimerRef  // timed only: deadline.args = coroc_refcnt_get(desc)
    | WantLock
    | AddRef        // __coroc_netpoll_add: reference, counter, epoll_ctl
    | AddOp
    | Register
    | Arm           // timed only: coroc_add_intertimer
    | Suspend       // inside vpu_suspend, still running
    | Park          // core_wait has set the status to WAIT
    | Waiting       // ... and has released the lock
    | Resumed       // timed: about to call coroc_del_intertimer
    | DropTimerRef
    | ReadMode
    | DropOwn
    | Gone

  /** The progress of the thread that has set `done`, or of a timer callback that has not. */
  datatype RemoverPc =
    | Idle
    | Claim         // poller only: has an event with the descriptor's address, about to try the CAS
    | Lock          // about to acquire desc->lock
    | Cas           // timer only: about to try the CAS
    | SetMode
    | RemRef        // __coroc_netpoll_rem: reference, counter, epoll_ctl
    | RemOp
    | RemCtl
    | Unlock
    | UnlockLost    // timer only: release after a failed CAS
    | Ready         // about to call vpu_ready
    | Put           // timer only: about to drop the timer's reference
    | Finish        // timer only: back in the firing loop, about to clear the index
    | Fired         // timer only

  datatype Holder = Nobody | Waiter | Daemon | Poller(j: nat)

  datatype State = State(
    timed: bool,
    count: nat,            // desc->refcnt
    releases: nat,         // how often the descriptor was freed
    done: Holder,          // desc->done, with who set it
    registered: bool,      // known to epoll
    lock: Holder,          // desc->lock
    timerLock: Holder,     // the timer manager's lock
    pending: bool,         // the deadline is in the timer heap
    ops: int,              // __coroc_num_op, this descriptor's share
    readies: nat,          // calls to vpu_ready(desc->wait)
    w: WaiterPc,
    t: RemoverPc,
    pollers: seq<RemoverPc>)

  datatype Action =
    | WaiterStep(registers: bool)   // whether epoll_ctl succeeds, where it is called
    | Expire                        // the daemon finds the deadline due
    | DaemonStep
    | Deliver(j: nat)               // poller j receives an event
    | PollerStep(j: nat)

  predicate Enabled(s: State, a: Action) {
    match a
    case WaiterStep(_) =>
      match s.w {
        case WantLock => s.lock.Nobody?
        case Arm | Resumed => s.timed ==> s.timerLock.Nobody?
        case Waiting | Gone => false
        case _ => true
      }
    case Expire => s.t.Idle? && s.pending && s.timerLock.Nobody?
    case DaemonStep =>
      match s.t {
        case Lock => s.lock.Nobody?
        case Idle | Fired => false
        case _ => true
      }
    case Deliver(j) => j < |s.pollers| && s.pollers[j].Idle? && s.registered
    case PollerStep(j) =>
      j < |s.pollers| &&
      match s.pollers[j]
      case Lock => s.lock.Nobody?
      case Claim | SetMode | RemRef | RemOp | RemCtl | Unlock | Ready => true
      case _ => false
  }

  /** __coroc_refcnt_put */
  function DropRef(s: State): State {
    if s.count == 1 then s.(count := 0, releases := s.releases + 1)
    else if s.count > 1 then s.(count := s.count - 1) else s
  }

  /** vpu_ready on the waiter. */
  function MakeReady(s: State): State {
    s.(readies := s.readies + 1, w := Resumed)
  }

  function StepWaiter(s: State, registers: bool): State {
    match s.w
    case TakeTimerRef => s.(w := WantLock, count := if s.timed then s.count + 1 else s.count)
    case WantLock => s.(w := AddRef, lock := Waiter)
    case AddRef => s.(w := AddOp, count := s.count + 1)
    case AddOp => s.(w := Register, ops := s.ops + 1)
    case Register => s.(w := Arm, registered := registers)
    case Arm => s.(w := Suspend, pending := s.timed)
    case Suspend => s.(w := Park)
    case Park => s.(w := Waiting, lock := Nobody)
    case Resumed => if s.pending then s.(w := DropTimerRef, pending := false) else s.(w := ReadMode)
    case DropTimerRef => DropRef(s).(w := ReadMode)
    case ReadMode => s.(w := DropOwn)
    case DropOwn => DropRef(s).(w := Gone)
    case _ => s
  }

  function StepDaemon(s: State): State {
    match s.t
    case Lock => s.(t := Cas, lock := Daemon)
    case Cas => if s.done.Nobody? then s.(t := SetMode, done := Daemon) else s.(t := UnlockLost)
    case SetMode => s.(t := RemRef)
    case RemRef => DropRef(s).(t := RemOp)
    case RemOp => s.(t := RemCtl, ops := s.ops - 1)
    case RemCtl => s.(t := Unlock, registered := false)
    case Unlock => s.(t := Ready, lock := Nobody)
    case UnlockLost => s.(t := Put, lock := Nobody)
    case Ready => MakeReady(s).(t := Put)
    case Put => DropRef(s).(t := Finish)
    case Finish => s.(t := Fired, pending := false, timerLock := Nobody)
    case _ => s
  }

  function StepPoller(s: State, j: nat): State
    requires j < |s.pollers|
  {
    match s.pollers[j]
    case Claim =>
      if s.done.Nobody? then s.(done := Poller(j), pollers := s.pollers[j := SetMode])
      else s.(pollers := s.pollers[j := Idle])
    case SetMode => s.(pollers := s.pollers[j := Lock])
    case Lock => s.(pollers := s.pollers[j := RemRef], lock := Poller(j))
    case RemRef => DropRef(s).(pollers := s.pollers[j := RemOp])
    case RemOp => s.(pollers := s.pollers[j := RemCtl], ops := s.ops - 1)
    case RemCtl => s.(pollers := s.pollers[j := Unlock], registered := false)
    case Unlock => s.(pollers := s.pollers[j := Ready], lock := Nobody)
    case Ready => MakeReady(s).(pollers := s.pollers[j := Idle])
    case _ => s
  }

  function Step(s: State, a: Action): State
    requires Enabled(s, a)
  {
    match a
    case WaiterStep(registers) => StepWaiter(s, registers)
    case Expire => s.(t := Lock, timerLock := Daemon)
    case DaemonStep => StepDaemon(s)
    case Deliver(j) => s.(pollers := s.pollers[j := Claim])
    case PollerStep(j) => StepPoller(s, j)
  }

  predicate Init(s: State) {
    && s.count == 1 && s.releases == 0 && s.done.Nobody? && !s.registered && s.lock.Nobody?
    && s.timerLock.Nobody? && !s.pending && s.ops == 0 && s.readies == 0
    && s.w.TakeTimerRef? && s.t.Idle? && forall j :: 0 <= j < |s.pollers| ==> s.pollers[j].Idle?
  }

  ghost predicate Moves(trace: seq<State>, actions: seq<Action>, i: nat)
    requires i < |actions| < |trace|
  {
    Enabled(trace[i], actions[i]) && trace[i + 1] == Step(trace[i], actions[i])
  }

  ghost predicate IsRun(trace: seq<State>, actions: seq<Action>) {
    |trace| == |actions| + 1 && Init(trace[0]) && forall i :: 0 <= i < |actions| ==> Moves(trace, actions, i)
  }

  /* ---- What every step keeps ---- */

  function Rank(w: WaiterPc): nat {
    match w
    case TakeTimerRef => 0 case WantLock => 1 case AddRef => 2 case AddOp => 3
    case Register => 4 case Arm => 5 case Suspend => 6 case Park => 7 case Waiting => 8
    case Resumed => 9 case DropTimerRef => 10 case ReadMode => 11 case DropOwn => 12 case Gone => 13
  }

  /** How far a claimed removal has come. */
  function Stage(pc: RemoverPc): nat {
    match pc
    case SetMode => 1 case Lock => 2 case Cas => 2 case RemRef => 3 case RemOp => 4
    case RemCtl => 5 case Unlock => 6 case Ready => 7 case _ => 8
  }

  /** 0 before anyone has set `done`, 8 once the waiter was readied. */
  function Removal(s: State): nat {
    match s.done
    case Daemon => Stage(s.t)
    case Poller(j) => if j < |s.pollers| then Stage(s.pollers[j]) else 0
    case _ => 0
  }

  /** Who holds a reference: the waiter, the deadline, the poller. */
  function OwnRef(s: State): nat { One(!s.w.Gone?) }

  function TimerRef(s: State): nat {
    One((s.timed && 1 <= Rank(s.w) <= 5) || (s.pending && !s.t.Finish?) || s.w.DropTimerRef?)
  }

  function PollRef(s: State): nat { One(Rank(s.w) >= 3 && Removal(s) <= 3) }

  predicate RefsExact(s: State) {
    && s.count == OwnRef(s) + TimerRef(s) + PollRef(s)
    && s.releases == One(s.count == 0)
    && s.ops == One(Rank(s.w) >= 4) - One(Removal(s) >= 5)
    && s.readies == One(Rank(s.w) >= 9)
  }

  predicate InCallback(t: RemoverPc) { !t.Idle? && !t.Fired? }

  predicate LocksExact(s: State) {
    && (s.lock.Waiter? <==> 2 <= Rank(s.w) <= 7)
    && (s.lock.Daemon? <==> s.t.Cas? || s.t.SetMode? || s.t.RemRef? || s.t.RemOp? || s.t.RemCtl? || s.t.Unlock? || s.t.UnlockLost?)
    && (s.timerLock.Daemon? <==> InCallback(s.t))
    && (s.lock.Poller? ==> s.done == s.lock && 3 <= Removal(s) <= 6)
    && (s.done.Poller? && 3 <= Removal(s) <= 6 ==> s.lock == s.done)
    && (s.timerLock.Daemon? || s.timerLock.Nobody?)
  }

  predicate TimerExact(s: State) {
    && (s.pending ==> s.timed && 6 <= Rank(s.w) <= 9)
    && (s.timed && 6 <= Rank(s.w) <= 9 ==> s.pending || s.t.Fired?)
    && (InCallback(s.t) ==> s.pending)
    && (s.t.Fired? ==> !s.pending && s.timed && Rank(s.w) >= 6 && !s.w.DropTimerRef?)
  }

  predicate ClaimExact(s: State) {
    && !s.done.Waiter?
    && (s.done.Poller? ==> s.done.j < |s.pollers|)
    && !s.t.Claim?
    && (forall j :: 0 <= j < |s.pollers| && s.pollers[j].Claim? ==> s.done != Poller(j) && Rank(s.w) >= 5)
    && (forall j :: 0 <= j < |s.pollers| && !s.pollers[j].Idle? && !s.pollers[j].Claim? ==>
          s.done == Poller(j) && !s.pollers[j].Cas? && Stage(s.pollers[j]) <= 7)
    && (s.done.Daemon? ==> !s.t.Idle? && !s.t.Lock? && !s.t.Cas? && !s.t.UnlockLost?)
    && (s.t.SetMode? || s.t.RemRef? || s.t.RemOp? || s.t.RemCtl? || s.t.Unlock? || s.t.Ready? ==> s.done.Daemon?)
    && (s.t.UnlockLost? || s.t.Put? || s.t.Finish? || s.t.Fired? ==> !s.done.Nobody?)
  }

  /** The waiter's progress against the removal's. */
  predicate Together(s: State) {
    && (!s.done.Nobody? ==> Rank(s.w) >= 5)
    && (3 <= Removal(s) <= 7 ==> Rank(s.w) == 8)
    && (Rank(s.w) >= 9 <==> Removal(s) == 8)
    && (s.registered ==> Rank(s.w) >= 5 && Removal(s) <= 5)
  }

  predicate Inv(s: State) {
    RefsExact(s) && LocksExact(s) && TimerExact(s) && ClaimExact(s) && Together(s)
  }

  lemma WaiterSetsUp(s: State, registers: bool)
    requires Inv(s) && Enabled(s, WaiterStep(registers)) && Rank(s.w) <= 4
    ensures Inv(Step(s, WaiterStep(registers)))
  {}

  lemma WaiterArms(s: State, registers: bool)
    requires Inv(s) && Enabled(s, WaiterStep(registers)) && s.w.Arm?
    ensures Inv(Step(s, WaiterStep(registers)))
  {}

  lemma WaiterSuspends(s: State, registers: bool)
    requires Inv(s) && Enabled(s, WaiterStep(registers)) && 6 <= Rank(s.w) <= 8
    ensures Inv(Step(s, WaiterStep(registers)))
  {}

  lemma WaiterLeaves(s: State, registers: bool)
    requires Inv(s) && Enabled(s, WaiterStep(registers)) && 9 <= Rank(s.w)
    ensures Inv(Step(s, WaiterStep(registers)))
  {}

  lemma DaemonClaims(s: State)
    requires Inv(s) && Enabled(s, DaemonStep) && (s.t.Lock? || s.t.Cas? || s.t.SetMode? || s.t.UnlockLost?)
    ensures Inv(Step(s, DaemonStep))
  {}

  lemma DaemonRemoves(s: State)
    requires Inv(s) && Enabled(s, DaemonStep) && (s.t.RemRef? || s.t.RemOp? || s.t.RemCtl? || s.t.Unlock?)
    ensures Inv(Step(s, DaemonStep))
  {}

  lemma DaemonFinishes(s: State)
    requires Inv(s) && Enabled(s, DaemonStep) && (s.t.Ready? || s.t.Put? || s.t.Finish?)
    ensures Inv(Step(s, DaemonStep))
  {}

  lemma ExpireKeeps(s: State)
    requires Inv(s) && Enabled(s, Expire)
    ensures Inv(Step(s, Expire))
  {}

  lemma DeliverKeeps(s: State, j: nat)
    requires Inv(s) && Enabled(s, Deliver(j))
    ensures Inv(Step(s, Deliver(j)))
  {}

  lemma PollerWins(s: State, j: nat)
    requires Inv(s) && Enabled(s, PollerStep(j)) && s.pollers[j].Claim? && s.done.Nobody?
    ensures Inv(Step(s, PollerStep(j)))
  {}

  lemma PollerLoses(s: State, j: nat)
    requires Inv(s) && Enabled(s, PollerStep(j)) && s.pollers[j].Claim? && !s.done.Nobody?
    ensures Inv(Step(s, PollerStep(j)))
  {
    var s' := StepPoller(s, j);
    assert s' == s.(pollers := s.pollers[j := Idle]);
    assert Removal(s') == Removal(s);
  }

  lemma PollerLocks(s: State, j: nat)
    requires Inv(s) && Enabled(s, PollerStep(j)) && (s.pollers[j].SetMode? || s.pollers[j].Lock?)
    ensures Inv(Step(s, PollerStep(j)))
  {}

  lemma PollerRemoves(s: State, j: nat)
    requires Inv(s) && Enabled(s, PollerStep(j))
    requires s.pollers[j].RemRef? || s.pollers[j].RemOp? || s.pollers[j].RemCtl?
    ensures Inv(Step(s, PollerStep(j)))
  {}

  lemma PollerFinishes(s: State, j: nat)
    requires Inv(s) && Enabled(s, PollerStep(j)) && (s.pollers[j].Unlock? || s.pollers[j].Ready?)
    ensures Inv(Step(s, PollerStep(j)))
  {}

  lemma StepKeepsInv(s: State, a: Action)
    requires Inv(s) && Enabled(s, a)
    ensures Inv(Step(s, a))
  {
    match a
    case WaiterStep(registers) =>
      if Rank(s.w) <= 4 { WaiterSetsUp(s, registers); }
      else if s.w.Arm? { WaiterArms(s, registers); }
      else if Rank(s.w) <= 8 { WaiterSuspends(s, registers); }
      else { WaiterLeaves(s, registers); }
    case Expire => ExpireKeeps(s);
    case DaemonStep =>
      if s.t.Lock? || s.t.Cas? || s.t.SetMode? || s.t.UnlockLost? { DaemonClaims(s); }
      else if s.t.Ready? || s.t.Put? || s.t.Finish? { DaemonFinishes(s); }
      else { DaemonRemoves(s); }
    case Deliver(j) => DeliverKeeps(s, j);
    case PollerStep(j) =>
      if s.pollers[j].Claim? { if s.done.Nobody? { PollerWins(s, j); } else { PollerLoses(s, j); } }
      else if s.pollers[j].SetMode? || s.pollers[j].Lock? { PollerLocks(s, j); }
      else if s.pollers[j].Unlock? || s.pollers[j].Ready? { PollerFinishes(s, j); }
      else { PollerRemoves(s, j); }
  }

  lemma {:induction false} RunsKeepInv(trace: seq<State>, actions: seq<Action>, i: nat)
    requires IsRun(trace, actions) && i < |trace|
    ensures Inv(trace[i])
  {
    if i > 0 {
      RunsKeepInv(trace, actions, i - 1);
      assert Moves(trace, actions, i - 1);
      StepKeepsInv(trace[i - 1], actions[i - 1]);
    }
  }

  /* ---- Safety over whole runs ---- */

  /** The action reads or writes the descriptor. */
  predicate UsesDescriptor(s: State, a: Action) {
    match a
    case WaiterStep(_) => !s.w.Arm? && !s.w.Resumed?
    case Expire => false
    case DaemonStep => !s.t.Finish?
    case Deliver(_) => false
    case PollerStep(_) => true
  }

  /** The action reads or writes the deadline, which lives on the waiter's stack. */
  predicate UsesDeadline(s: State, a: Action) {
    a.Expire? || a.DaemonStep? || (a.WaiterStep? && s.timed && (s.w.Arm? || s.w.Resumed?))
  }

  /** The thread that acts is about to do pc. */
  predicate Does(s: State, a: Action, pc: RemoverPc) {
    match a
    case DaemonStep => s.t == pc
    case PollerStep(j) => j < |s.pollers| && s.pollers[j] == pc
    case _ => false
  }

  /** No use after free, of the deadline at all and of the descriptor except by the CAS of a poller that
      was told of an event before; __coroc_netpoll_rem never drops the last
      reference; vpu_ready finds the waiter suspended, with the lock released, for the first time. */
  lemma RunsAreSafe(trace: seq<State>, actions: seq<Action>, i: nat)
    requires IsRun(trace, actions) && i < |actions|
    ensures var (s, a) := (trace[i], actions[i]);
            && (UsesDescriptor(s, a) && !Does(s, a, Claim) ==> s.releases == 0 && s.count >= 1)
            && (Does(s, a, Claim) ==> (s.releases == 0 <==> !s.w.Gone?))
            && (UsesDeadline(s, a) ==> Rank(s.w) <= 9)
            && (Does(s, a, RemRef) ==> s.count >= 2)
            && (Does(s, a, Ready) ==> s.w.Waiting? && s.readies == 0)
  {
    RunsKeepInv(trace, actions, i);
    assert Moves(trace, actions, i);
  }

  /** The descriptor's count is exactly the number of holders, and it is freed exactly once, by the waiter
      as it leaves; nobody is then inside a callback or a removal (a poller may still have an event), epoll has forgotten the descriptor, the
      timer is gone and the operation counter is balanced. */
  lemma FreedExactlyOnce(trace: seq<State>, actions: seq<Action>, i: nat)
    requires IsRun(trace, actions) && i < |trace|
    ensures var s := trace[i];
            && s.count == OwnRef(s) + TimerRef(s) + PollRef(s)
            && s.releases == One(s.w.Gone?)
            && s.readies == One(Rank(s.w) >= 9)
            && (s.w.Gone? ==>
                  && s.count == 0 && s.ops == 0 && !s.registered && !s.pending && !InCallback(s.t)
                  && forall j :: 0 <= j < |s.pollers| ==> s.pollers[j].Idle? || s.pollers[j].Claim?)
  {
    RunsKeepInv(trace, actions, i);
  }

  lemma WaiterLeavesDone(s: State, registers: bool)
    ensures StepWaiter(s, registers).done == s.done && StepWaiter(s, registers).timed == s.timed
  {}

  lemma DaemonLeavesDone(s: State)
    ensures (!s.done.Nobody? ==> StepDaemon(s).done == s.done) && StepDaemon(s).timed == s.timed
  {}

  lemma PollerLeavesDone(s: State, j: nat)
    requires j < |s.pollers|
    ensures (!s.done.Nobody? ==> StepPoller(s, j).done == s.done) && StepPoller(s, j).timed == s.timed
  {}

  lemma DoneStays(s: State, a: Action, s': State)
    requires Enabled(s, a) && s' == Step(s, a)
    ensures s'.timed == s.timed && (!s.done.Nobody? ==> s'.done == s.done)
  {
    match a
    case WaiterStep(registers) => WaiterLeavesDone(s, registers);
    case DaemonStep => DaemonLeavesDone(s);
    case PollerStep(j) => PollerLeavesDone(s, j);
    case _ =>
  }

  /** The CAS on `done` has one winner: once it is set it is never set again. */
  lemma {:induction false} OneWinner(trace: seq<State>, actions: seq<Action>, i: nat, j: nat)
    requires IsRun(trace, actions) && i <= j < |trace| && !trace[i].done.Nobody?
    ensures trace[j].done == trace[i].done
    decreases j - i
  {
    if i < j {
      OneWinner(trace, actions, i, j - 1);
      assert Moves(trace, actions, j - 1);
      DoneStays(trace[j - 1], actions[j - 1], trace[j]);
    }
  }

  /** Whoever tries the CAS first, poller or timer, becomes the one to remove the descriptor and to wake the
      waiter; whoever comes later goes away. */
  lemma FirstClaimWins(s: State, a: Action)
    requires Enabled(s, a) && ((Does(s, a, Claim) && a.PollerStep?) || (Does(s, a, Cas) && a.DaemonStep?))
    ensures var (s', me) := (Step(s, a), if a.DaemonStep? then Daemon else Poller(a.j));
            && (s.done.Nobody? ==> s'.done == me && Does(s', a, SetMode))
            && (!s.done.Nobody? ==> s'.done == s.done && Does(s', a, if a.DaemonStep? then UnlockLost else Idle))
  {}

  /* ---- Every wait comes to an end ---- */

  function DaemonLeft(t: RemoverPc): nat {
    match t
    case Idle => 12 case Lock => 11 case Cas => 10 case SetMode => 9 case RemRef => 8 case RemOp => 7
    case RemCtl => 6 case Unlock => 5 case UnlockLost => 5 case Ready => 4 case Put => 3 case Finish => 2
    case Fired => 0 case Claim => 0
  }

  function PollersLeft(s: State): int {
    if s.done.Nobody? then 8 else if s.done.Poller? then 8 - Removal(s) else 0
  }

  function Left(s: State): int {
    13 - Rank(s.w) + DaemonLeft(s.t) + PollersLeft(s)
  }

  lemma WaiterProgresses(s: State, registers: bool)
    requires Inv(s) && Enabled(s, WaiterStep(registers))
    ensures Left(Step(s, WaiterStep(registers))) < Left(s)
  {}

  lemma DaemonProgresses(s: State)
    requires Inv(s) && Enabled(s, DaemonStep)
    ensures Left(Step(s, DaemonStep)) < Left(s)
  {}

  lemma PollerProgresses(s: State, j: nat)
    requires Inv(s) && Enabled(s, PollerStep(j)) && (s.pollers[j].Claim? ==> s.done.Nobody?)
    ensures Left(Step(s, PollerStep(j))) < Left(s)
  {}

  /** Not the report of an event, nor a CAS that comes too late. */
  predicate Effective(s: State, a: Action) {
    !a.Deliver? && (Does(s, a, Claim) ==> s.done.Nobody?)
  }

  lemma IdleEventsChangeNothing(s: State, a: Action)
    requires Inv(s) && Enabled(s, a) && !Effective(s, a)
    ensures Left(Step(s, a)) == Left(s)
  {}

  /** Every action makes progress, except for events that somebody else has already taken. */
  lemma EveryActionProgresses(s: State, a: Action)
    requires Inv(s) && Enabled(s, a)
    ensures if Effective(s, a) then Left(Step(s, a)) < Left(s) else Left(Step(s, a)) == Left(s)
  {
    if !Effective(s, a) {
      IdleEventsChangeNothing(s, a);
    } else {
      match a
      case WaiterStep(registers) => WaiterProgresses(s, registers);
      case DaemonStep => DaemonProgresses(s);
      case PollerStep(j) => PollerProgresses(s, j);
      case _ =>
    }
  }

  /** How many of the first n actions of a run were effective. */
  ghost function Effort(trace: seq<State>, actions: seq<Action>, n: nat): nat
    requires n <= |actions| < |trace|
  {
    if n == 0 then 0 else Effort(trace, actions, n - 1) + One(Effective(trace[n - 1], actions[n - 1]))
  }

  lemma Spent(s: State, a: Action, s': State)
    requires Inv(s) && Enabled(s, a) && s' == Step(s, a)
    ensures Left(s') + One(Effective(s, a)) <= Left(s)
  {
    EveryActionProgresses(s, a);
  }

  lemma InitialLeft(s: State)
    requires Init(s)
    ensures Left(s) == 33
  {}

  lemma LeftIsNat(s: State)
    requires Inv(s)
    ensures Left(s) >= 0
  {}

  lemma {:induction false} RunsAreShort(trace: seq<State>, actions: seq<Action>, n: nat)
    requires IsRun(trace, actions) && n <= |actions|
    ensures Effort(trace, actions, n) + Left(trace[n]) <= 33 && Left(trace[n]) >= 0
  {
    if n > 0 {
      RunsAreShort(trace, actions, n - 1);
      RunsKeepInv(trace, actions, n - 1);
      assert Moves(trace, actions, n - 1);
      Spent(trace[n - 1], actions[n - 1], trace[n]);
    } else {
      InitialLeft(trace[0]);
    }
    RunsKeepInv(trace, actions, n);
    LeftIsNat(trace[n]);
  }

  /** Someone who can act: the poller that set `done`, else the daemon, else the waiter. */
  function Mover(s: State): Action {
    if s.done.Poller? && Removal(s) <= 7 && Enabled(s, PollerStep(s.done.j)) then PollerStep(s.done.j)
    else if Enabled(s, DaemonStep) then DaemonStep
    else if Enabled(s, WaiterStep(true)) then WaiterStep(true)
    else Expire
  }

  /** Somebody can always move, unless the wait is over or an untimed waiter waits for an event: the two
      locks, taken in both orders by waiter and daemon, never block everyone. */
  lemma NeverStuck(s: State)
    requires Inv(s)
    ensures Enabled(s, Mover(s)) || s.w.Gone? || (!s.timed && s.w.Waiting? && s.done.Nobody?)
  {}

  /** A timed wait in which nobody can move any more has returned and has freed its descriptor. */
  lemma TimedWaitReturns(trace: seq<State>, actions: seq<Action>)
    requires IsRun(trace, actions) && trace[0].timed && !Enabled(trace[|actions|], Mover(trace[|actions|]))
    ensures var s := trace[|actions|]; s.w.Gone? && s.releases == 1 && s.readies == 1
  {
    RunsKeepInv(trace, actions, |actions|);
    NeverStuck(trace[|actions|]);
    TimedStays(trace, actions, |actions|);
  }

  lemma {:induction false} TimedStays(trace: seq<State>, actions: seq<Action>, i: nat)
    requires IsRun(trace, actions) && i < |trace|
    ensures trace[i].timed == trace[0].timed
  {
    if i > 0 {
      TimedStays(trace, actions, i - 1);
      assert Moves(trace, actions, i - 1);
      DoneStays(trace[i - 1], actions[i - 1], trace[i]);
    }
  }

  /* ---- The CAS of a poller on a descriptor that is already freed ---- */

  /** Without a timer and with one poller, the event that the poller has is the only one to be taken. */
  ghost predicate Alone(s: State) {
    !s.timed && |s.pollers| <= 1 && forall j :: 0 <= j < |s.pollers| && s.pollers[j].Claim? ==> s.done.Nobody?
  }

  lemma PollersStay(s: State, a: Action)
    requires Enabled(s, a)
    ensures |Step(s, a).pollers| == |s.pollers|
  {}

  lemma AloneStays(s: State, a: Action)
    requires Inv(s) && Alone(s) && Enabled(s, a)
    ensures Alone(Step(s, a))
  {
    PollersStay(s, a);
    match a
    case WaiterStep(registers) => WaiterLeavesPollers(s, registers);
    case PollerStep(j) => assert j == 0 && !StepPoller(s, j).pollers[0].Claim?;
    case _ =>
  }

  lemma WaiterLeavesPollers(s: State, registers: bool)
    ensures StepWaiter(s, registers).pollers == s.pollers && StepWaiter(s, registers).done == s.done
    ensures StepWaiter(s, registers).timed == s.timed
  {}

  lemma {:induction false} RunsStayAlone(trace: seq<State>, actions: seq<Action>, i: nat)
    requires IsRun(trace, actions) && i < |trace| && !trace[0].timed && |trace[0].pollers| <= 1
    ensures Alone(trace[i])
  {
    if i > 0 {
      RunsStayAlone(trace, actions, i - 1);
      RunsKeepInv(trace, actions, i - 1);
      assert Moves(trace, actions, i - 1);
      AloneStays(trace[i - 1], actions[i - 1]);
    }
  }

  /** In such a run no poller ever touches a freed descriptor. */
  lemma LonePollerIsSafe(trace: seq<State>, actions: seq<Action>, i: nat)
    requires IsRun(trace, actions) && i < |actions| && !trace[0].timed && |trace[0].pollers| <= 1
    ensures UsesDescriptor(trace[i], actions[i]) ==> trace[i].releases == 0
  {
    RunsAreSafe(trace, actions, i);
    RunsStayAlone(trace, actions, i);
    RunsKeepInv(trace, actions, i);
    assert Moves(trace, actions, i);
  }

  /* ---- When epoll_ctl fails ---- */

  /** The kernel does not know the descriptor, and no poller does. */
  predicate Unheard(s: State) {
    Rank(s.w) >= 5 && !s.registered && !s.done.Poller? && forall j :: 0 <= j < |s.pollers| ==> s.pollers[j].Idle?
  }

  lemma UnheardStays(s: State, a: Action)
    requires Inv(s) && Unheard(s) && Enabled(s, a)
    ensures Unheard(Step(s, a))
  {}

  lemma FailedRegister(s: State)
    requires Inv(s) && s.w.Register?
    ensures Unheard(Step(s, WaiterStep(false)))
  {}

  lemma UnheardEnds(s: State)
    requires Inv(s) && Unheard(s)
    ensures Rank(s.w) > 8 ==> s.done.Daemon?
    ensures !s.timed ==> s.done.Nobody? && Rank(s.w) <= 8
  {}

  lemma {:induction false} StaysUnheard(trace: seq<State>, actions: seq<Action>, n: nat, m: nat)
    requires IsRun(trace, actions) && n < m < |trace| && trace[n].w.Register? && actions[n] == WaiterStep(false)
    ensures Unheard(trace[m])
    decreases m
  {
    RunsKeepInv(trace, actions, m - 1);
    assert Moves(trace, actions, m - 1);
    if m == n + 1 {
      FailedRegister(trace[n]);
    } else {
      StaysUnheard(trace, actions, n, m - 1);
      UnheardStays(trace[m - 1], actions[m - 1]);
    }
  }

  /** The result of epoll_ctl is ignored: if it fails, no poller ever touches the wait, which ends with its
      deadline, or never if it has none. */
  lemma FailedRegistration(trace: seq<State>, actions: seq<Action>, n: nat, m: nat)
    requires IsRun(trace, actions) && n < m < |trace| && trace[n].w.Register? && actions[n] == WaiterStep(false)
    ensures Unheard(trace[m]) && (Rank(trace[m].w) > 8 ==> trace[m].done.Daemon?)
    ensures !trace[0].timed ==> trace[m].done.Nobody? && Rank(trace[m].w) <= 8
  {
    StaysUnheard(trace, actions, n, m);
    RunsKeepInv(trace, actions, m);
    TimedStays(trace, actions, m);
    UnheardEnds(trace[m]);
  }

  /** A run at the end of which poller 0 is about to try its CAS on a descriptor that is already freed. */
  ghost predicate StaleClaim(trace: seq<State>, actions: seq<Action>) {
    && IsRun(trace, actions)
    && var s := trace[|actions|]; |s.pollers| > 0 && s.pollers[0].Claim? && s.releases == 1
  }

  /** The call of epoll_ctl in this run had that result. */
  ghost predicate Registers(trace: seq<State>, actions: seq<Action>, ok: bool) {
    exists n :: 0 <= n < |actions| < |trace| && trace[n].w.Register? && actions[n] == WaiterStep(ok)
  }

  lemma Extend(trace: seq<State>, actions: seq<Action>, a: Action) returns (longer: seq<State>, more: seq<Action>)
    requires IsRun(trace, actions) && Enabled(trace[|actions|], a)
    ensures IsRun(longer, more) && longer[0] == trace[0] && longer[|more|] == Step(trace[|actions|], a)
    ensures Registers(trace, actions, true) ==> Registers(longer, more, true)
    ensures trace[|actions|].w.Register? && a == WaiterStep(true) ==> Registers(longer, more, true)
  {
    longer, more := trace + [Step(trace[|actions|], a)], actions + [a];
    if n :| 0 <= n < |actions| && trace[n].w.Register? && actions[n] == WaiterStep(true) {
      assert longer[n].w.Register? && more[n] == WaiterStep(true);
    }
    if trace[|actions|].w.Register? && a == WaiterStep(true) {
      assert longer[|actions|].w.Register? && more[|actions|] == WaiterStep(true);
    }
    forall i | 0 <= i < |more| ensures Moves(longer, more, i) {
      if i < |actions| { assert Moves(trace, actions, i); }
    }
  }

  function Start(timed: bool, p: nat): State {
    State(timed, 1, 0, Nobody, false, Nobody, Nobody, false, 0, 0, TakeTimerRef, Idle, seq(p, _ => Idle))
  }

  /** The waiter sets up, registers and suspends itself. */
  lemma Suspended(timed: bool, p: nat) returns (trace: seq<State>, actions: seq<Action>)
    ensures IsRun(trace, actions) && trace[0] == Start(timed, p) && Registers(trace, actions, true)
    ensures trace[|actions|] ==
            State(timed, if timed then 3 else 2, 0, Nobody, true, Nobody, Nobody, timed, 1, 0, Waiting, Idle, seq(p, _ => Idle))
  {
    trace, actions := [Start(timed, p)], [];
    trace, actions := Extend(trace, actions, WaiterStep(true));
    trace, actions := Extend(trace, actions, WaiterStep(true));
    trace, actions := Extend(trace, actions, WaiterStep(true));
    trace, actions := Extend(trace, actions, WaiterStep(true));
    trace, actions := Extend(trace, actions, WaiterStep(true));
    trace, actions := Extend(trace, actions, WaiterStep(true));
    trace, actions := Extend(trace, actions, WaiterStep(true));
    trace, actions := Extend(trace, actions, WaiterStep(true));
  }

  /** The waiter, resumed without a pending deadline, frees the descriptor. */
  lemma Freed(before: seq<State>, past: seq<Action>) returns (trace: seq<State>, actions: seq<Action>)
    requires IsRun(before, past)
    requires var s := before[|past|];
             s.w.Resumed? && !s.pending && s.timerLock.Nobody? && s.count == 1 && s.releases == 0
    ensures IsRun(trace, actions) && trace[0] == before[0] && (Registers(before, past, true) ==> Registers(trace, actions, true))
    ensures trace[|actions|].pollers == before[|past|].pollers && trace[|actions|].releases == 1 && trace[|actions|].w.Gone?
  {
    trace, actions := Extend(before, past, WaiterStep(true));
    trace, actions := Extend(trace, actions, WaiterStep(true));
    trace, actions := Extend(trace, actions, WaiterStep(true));
  }

  /** The deadline expires and the daemon takes the wait. */
  lemma TimedOut(before: seq<State>, past: seq<Action>, ps: seq<RemoverPc>) returns (trace: seq<State>, actions: seq<Action>)
    requires IsRun(before, past)
    requires before[|past|] == State(true, 3, 0, Nobody, true, Nobody, Nobody, true, 1, 0, Waiting, Idle, ps)
    ensures IsRun(trace, actions) && trace[0] == before[0]
    ensures trace[|actions|] == State(true, 2, 0, Daemon, false, Daemon, Daemon, true, 0, 0, Waiting, Unlock, ps)
  {
    trace, actions := Extend(before, past, Expire);
    trace, actions := Extend(trace, actions, DaemonStep);
    trace, actions := Extend(trace, actions, DaemonStep);
    trace, actions := Extend(trace, actions, DaemonStep);
    trace, actions := Extend(trace, actions, DaemonStep);
    trace, actions := Extend(trace, actions, DaemonStep);
    trace, actions := Extend(trace, actions, DaemonStep);
  }

  lemma CalledBack(before: seq<State>, past: seq<Action>, ps: seq<RemoverPc>) returns (trace: seq<State>, actions: seq<Action>)
    requires IsRun(before, past)
    requires before[|past|] == State(true, 2, 0, Daemon, false, Daemon, Daemon, true, 0, 0, Waiting, Unlock, ps)
    ensures IsRun(trace, actions) && trace[0] == before[0]
    ensures trace[|actions|] == State(true, 1, 0, Daemon, false, Nobody, Nobody, false, 0, 1, Resumed, Fired, ps)
  {
    trace, actions := Extend(before, past, DaemonStep);
    trace, actions := Extend(trace, actions, DaemonStep);
    trace, actions := Extend(trace, actions, DaemonStep);
    trace, actions := Extend(trace, actions, DaemonStep);
  }

  /** With a timer, one poller is enough: it gets an event, the deadline expires and the waiter leaves. */
  lemma StaleAfterTimeout(p: nat) returns (trace: seq<State>, actions: seq<Action>)
    requires p > 0
    ensures StaleClaim(trace, actions) && trace[0] == Start(true, p)
  {
    trace, actions := Suspended(true, p);
    trace, actions := Extend(trace, actions, Deliver(0));
    var ps := trace[|actions|].pollers;
    trace, actions := TimedOut(trace, actions, ps);
    trace, actions := CalledBack(trace, actions, ps);
    trace, actions := Freed(trace, actions);
  }

  /** Poller j takes the wait. */
  lemma TakenBy(before: seq<State>, past: seq<Action>, ps: seq<RemoverPc>, j: nat) returns (trace: seq<State>, actions: seq<Action>)
    requires IsRun(before, past) && j < |ps| && ps[j].Claim?
    requires before[|past|] == State(false, 2, 0, Nobody, true, Nobody, Nobody, false, 1, 0, Waiting, Idle, ps)
    ensures IsRun(trace, actions) && trace[0] == before[0] && (Registers(before, past, true) ==> Registers(trace, actions, true))
    ensures trace[|actions|] == State(false, 1, 0, Poller(j), false, Nobody, Nobody, false, 0, 1, Resumed, Idle, ps[j := Idle])
  {
    trace, actions := Extend(before, past, PollerStep(j));
    trace, actions := Extend(trace, actions, PollerStep(j));
    trace, actions := Extend(trace, actions, PollerStep(j));
    trace, actions := Extend(trace, actions, PollerStep(j));
    trace, actions := Extend(trace, actions, PollerStep(j));
    trace, actions := Extend(trace, actions, PollerStep(j));
    trace, actions := Extend(trace, actions, PollerStep(j));
    trace, actions := Extend(trace, actions, PollerStep(j));
    assert trace[|actions|].pollers == ps[j := Idle];
  }

  /** Without one, two pollers are: both get an event, and one takes the wait before the other's CAS. */
  lemma StaleAfterOther(p: nat) returns (trace: seq<State>, actions: seq<Action>)
    requires p > 1
    ensures StaleClaim(trace, actions) && trace[0] == Start(false, p)
  {
    trace, actions := Suspended(false, p);
    trace, actions := Extend(trace, actions, Deliver(0));
    trace, actions := Extend(trace, actions, Deliver(1));
    trace, actions := TakenBy(trace, actions, trace[|actions|].pollers, 1);
    trace, actions := Freed(trace, actions);
  }

  /** A poller's CAS can hit a freed descriptor if and only if the wait has a timer or a second poller. */
  lemma StaleClaimIff(timed: bool, p: nat)
    requires p > 0
    ensures (exists trace, actions :: StaleClaim(trace, actions) && trace[0] == Start(timed, p)) <==> timed || p > 1
  {
    if timed {
      var trace, actions := StaleAfterTimeout(p);
    } else if p > 1 {
      var trace, actions := StaleAfterOther(p);
    } else {
      forall trace, actions | StaleClaim(trace, actions) ensures trace[0] != Start(timed, p) {
        if trace[0] == Start(timed, p) { LoneIsNotStale(trace, actions); }
      }
    }
  }

  lemma LoneIsNotStale(trace: seq<State>, actions: seq<Action>)
    requires IsRun(trace, actions) && !trace[0].timed && |trace[0].pollers| <= 1
    ensures !StaleClaim(trace, actions)
  {
    RunsStayAlone(trace, actions, |actions|);
    RunsKeepInv(trace, actions, |actions|);
  }

  /** A run of a wait that returns although, or because, epoll_ctl had that result. */
  ghost predicate ReturnsWith(trace: seq<State>, actions: seq<Action>, ok: bool) {
    IsRun(trace, actions) && Registers(trace, actions, ok) && trace[|actions|].w.Gone?
  }

  lemma RegisteredReturns(p: nat) returns (trace: seq<State>, actions: seq<Action>)
    requires p > 0
    ensures ReturnsWith(trace, actions, true) && trace[0] == Start(false, p)
  {
    trace, actions := Suspended(false, p);
    trace, actions := Extend(trace, actions, Deliver(0));
    trace, actions := TakenBy(trace, actions, trace[|actions|].pollers, 0);
    trace, actions := Freed(trace, actions);
  }

  lemma FailedNeverReturns(trace: seq<State>, actions: seq<Action>)
    requires IsRun(trace, actions) && Registers(trace, actions, false) && !trace[0].timed
    ensures !trace[|actions|].w.Gone?
  {
    var n :| 0 <= n < |actions| && trace[n].w.Register? && actions[n] == WaiterStep(false);
    FailedRegistration(trace, actions, n, |actions|);
  }

  /** A wait without a deadline can return if and only if epoll_ctl accepts the descriptor. */
  lemma UntimedReturnsIff(p: nat, ok: bool)
    requires p > 0
    ensures (exists trace, actions :: ReturnsWith(trace, actions, ok) && trace[0] == Start(false, p)) <==> ok
  {
    if ok {
      var trace, actions := RegisteredReturns(p);
    } else {
      forall trace, actions | ReturnsWith(trace, actions, ok) ensures trace[0] != Start(false, p) {
        if trace[0] == Start(false, p) { FailedNeverReturns(trace, actions); }
      }
    }
  }
}
