/** The fork-join group of src/group.c: a parent adds tasks to a group and waits for all of them with
    coroc_group_sync; each task ends with coroc_group_notify.

    One action is one atomic access to `count` or `errors`, one lock operation, or one lock-protected
    access to `parent`.  Tasks are added by the parent before it calls sync, or by a task that has not
    notified yet.  The group's 32-bit counters are taken as unbounded. */
module Group {
  import opened Common

  datatype MemberPc =
    | Working
    | Counting      // in notify: `errors` is up to date, about to decrement `count`
    | Finished      // its decrement left tasks behind
    | Closing       // its decrement reached zero; about to acquire the lock
    | Reading       // holds the lock, about to read `parent`
    | Waking        // read a non-null parent, about to call vpu_ready
    | Closed

  datatype Member = Member(pc: MemberPc, failed: bool)

  /** How coroc_group_sync came to its return. */
  datatype Exit = LastOut | SecondRead | Woken

  datatype ParentPc =
    | Spawning
    | WantLock      // its own decrement left tasks behind
    | Checking      // holds the lock, about to read `count` again
    | Suspending    // `parent` is set, still running, holds the lock
    | Parking       // status WAIT, about to release the lock
    | Parked        // status WAIT, lock released
    | Leaving(how: Exit)
    | Returned(how: Exit, result: nat)

  datatype Owner = Free | Parent | Task(i: nat)

  datatype State = State(
    count: nat,
    errors: nat,
    lock: Owner,
    registered: bool,   // group->parent is not null
    readies: nat,       // calls to vpu_ready(parent)
    parent: ParentPc,
    members: seq<Member>)

  datatype Action =
    | Spawn                         // parent: coroc_group_add_task
    | SpawnFrom(i: nat)             // task i: coroc_group_add_task
    | Report(i: nat, failed: bool)  // notify with that return value: count the error
    | CountDown(i: nat)             // notify: decrement
    | Acquire(i: nat)
    | ReadParent(i: nat)            // read `parent` and release
    | Wake(i: nat)                  // vpu_ready
    | Sync                          // parent: decrement
    | SyncLock
    | SyncCheck                     // second read
    | SyncPark                      // core_wait sets WAIT
    | SyncRelease                   // core_wait runs the unlock handler
    | SyncReturn                    // read `errors`

  predicate At(s: State, i: nat, pc: MemberPc) {
    i < |s.members| && s.members[i].pc == pc
  }

  predicate Enabled(s: State, a: Action) {
    match a
    case Spawn => s.parent.Spawning?
    case SpawnFrom(i) => At(s, i, Working)
    case Report(i, _) => At(s, i, Working)
    case CountDown(i) => At(s, i, Counting)
    case Acquire(i) => At(s, i, Closing) && s.lock.Free?
    case ReadParent(i) => At(s, i, Reading)
    case Wake(i) => At(s, i, Waking)
    case Sync => s.parent.Spawning?
    case SyncLock => s.parent.WantLock? && s.lock.Free?
    case SyncCheck => s.parent.Checking?
    case SyncPark => s.parent.Suspending?
    case SyncRelease => s.parent.Parking?
    case SyncReturn => s.parent.Leaving?
  }

  function Move(s: State, i: nat, pc: MemberPc): State
    requires i < |s.members|
  {
    s.(members := s.members[i := Member(pc, s.members[i].failed)])
  }

  function Added(s: State): State {
    s.(count := s.count + 1, members := s.members + [Member(Working, false)])
  }

  function Less(n: nat): nat {
    if n == 0 then 0 else n - 1
  }

  function Step(s: State, a: Action): State
    requires Enabled(s, a)
  {
    match a
    case Spawn => Added(s)
    case SpawnFrom(_) => Added(s)
    case Report(i, failed) =>
      s.(errors := if failed then s.errors + 1 else s.errors, members := s.members[i := Member(Counting, failed)])
    case CountDown(i) =>
      Move(s.(count := Less(s.count)), i, if Less(s.count) == 0 then Closing else Finished)
    case Acquire(i) => Move(s.(lock := Task(i)), i, Reading)
    case ReadParent(i) => Move(s.(lock := Free), i, if s.registered then Waking else Closed)
    case Wake(i) => Move(s.(readies := s.readies + 1, parent := Leaving(Woken)), i, Closed)
    case Sync =>
      s.(count := Less(s.count), parent := if Less(s.count) > 0 then WantLock else Leaving(LastOut))
    case SyncLock => s.(lock := Parent, parent := Checking)
    case SyncCheck =>
      if s.count > 0 then s.(registered := true, parent := Suspending) else s.(parent := Leaving(SecondRead))
    case SyncPark => s.(parent := Parking)
    case SyncRelease => s.(parent := Parked, lock := Free)
    case SyncReturn => s.(parent := Returned(s.parent.how, s.errors))
  }

  /** coroc_group_init */
  predicate Init(s: State) {
    s == State(1, 0, Free, false, 0, Spawning, [])
  }

  ghost predicate Moves(trace: seq<State>, actions: seq<Action>, i: nat)
    requires i < |actions| < |trace|
  {
    Enabled(trace[i], actions[i]) && trace[i + 1] == Step(trace[i], actions[i])
  }

  ghost predicate IsRun(trace: seq<State>, actions: seq<Action>) {
    |trace| == |actions| + 1 && Init(trace[0]) && forall i :: 0 <= i < |actions| ==> Moves(trace, actions, i)
  }

  /* ---- Counting members ---- */

  predicate Unfinished(m: Member) { m.pc.Working? || m.pc.Counting? }

  predicate Failed(m: Member) { m.failed }

  /** The task whose decrement reached zero, whatever it has done since. */
  predicate Closer(m: Member) { m.pc.Closing? || m.pc.Reading? || m.pc.Waking? || m.pc.Closed? }

  /* ---- What every step keeps ---- */

  function Share(p: ParentPc): nat { One(p.Spawning?) }

  /** The parent's decrement was the one that reached zero. */
  predicate ParentLast(p: ParentPc) {
    match p
    case Leaving(how) => how.LastOut?
    case Returned(how, _) => how.LastOut?
    case _ => false
  }

  predicate LeakExit(p: ParentPc) {
    match p
    case Leaving(how) => how.SecondRead?
    case Returned(how, _) => how.SecondRead?
    case _ => false
  }

  predicate WokenExit(p: ParentPc) {
    match p
    case Leaving(how) => how.Woken?
    case Returned(how, _) => how.Woken?
    case _ => false
  }

  predicate Exiting(p: ParentPc) { p.Leaving? || p.Returned? }

  predicate Sleeping(p: ParentPc) { p.Parking? || p.Parked? }

  predicate CountsExact(s: State) {
    && s.count == Share(s.parent) + Count(s.members, Unfinished)
    && s.errors == Count(s.members, Failed)
    && Count(s.members, Closer) == One(s.count == 0 && !ParentLast(s.parent))
    && (Exiting(s.parent) ==> s.count == 0)
    && (s.parent.Returned? ==> s.parent.result == s.errors)
  }

  predicate LocksExact(s: State) {
    && (s.lock.Parent? <==> s.parent.Checking? || s.parent.Suspending? || s.parent.Parking? || LeakExit(s.parent))
    && (forall i :: 0 <= i < |s.members| ==> (s.members[i].pc.Reading? <==> s.lock == Task(i)))
    && (s.lock.Task? ==> s.lock.i < |s.members|)
  }

  /** The hand-over of the wake-up from the parent's registration to the closing task. */
  predicate WakeExact(s: State) {
    && (s.registered <==> s.parent.Suspending? || Sleeping(s.parent) || WokenExit(s.parent))
    && s.readies == One(WokenExit(s.parent))
    && (forall i :: 0 <= i < |s.members| && s.members[i].pc.Waking? ==> s.parent.Parked?)
    && (forall i :: 0 <= i < |s.members| && s.members[i].pc.Closed? ==> !s.parent.Suspending? && !Sleeping(s.parent))
    && (WokenExit(s.parent) ==> forall i :: 0 <= i < |s.members| ==> !s.members[i].pc.Closing? && !s.members[i].pc.Reading?)
  }

  predicate Inv(s: State) {
    CountsExact(s) && LocksExact(s) && WakeExact(s)
  }

  /** The tallies after task i has become m. */
  lemma Tallies(s: State, i: nat, m: Member)
    requires i < |s.members|
    ensures var ms := s.members[i := m];
            && Count(ms, Unfinished) + One(Unfinished(s.members[i])) == Count(s.members, Unfinished) + One(Unfinished(m))
            && Count(ms, Failed) + One(Failed(s.members[i])) == Count(s.members, Failed) + One(Failed(m))
            && Count(ms, Closer) + One(Closer(s.members[i])) == Count(s.members, Closer) + One(Closer(m))
  {
    CountUpdate(s.members, Unfinished, i, m);
    CountUpdate(s.members, Failed, i, m);
    CountUpdate(s.members, Closer, i, m);
  }

  lemma AddKeeps(s: State, a: Action)
    requires Inv(s) && Enabled(s, a) && (a.Spawn? || a.SpawnFrom?)
    ensures Inv(Step(s, a))
  {
    var m := Member(Working, false);
    CountAppend(s.members, Unfinished, m);
    CountAppend(s.members, Failed, m);
    CountAppend(s.members, Closer, m);
    if a.SpawnFrom? { CountAtLeast(s.members, Unfinished, a.i); }
  }

  lemma ReportKeeps(s: State, i: nat, failed: bool)
    requires Inv(s) && NotYetFailed(s) && Enabled(s, Report(i, failed))
    ensures Inv(Step(s, Report(i, failed)))
  {
    CountAtLeast(s.members, Unfinished, i);
    Tallies(s, i, Member(Counting, failed));
  }

  /** A task that has not notified has reported no failure. */
  predicate NotYetFailed(s: State) {
    forall i :: 0 <= i < |s.members| && s.members[i].pc.Working? ==> !s.members[i].failed
  }

  lemma NotYetFailedKept(s: State, a: Action)
    requires NotYetFailed(s) && Enabled(s, a)
    ensures NotYetFailed(Step(s, a))
  {}

  lemma CountDownKeeps(s: State, i: nat)
    requires Inv(s) && Enabled(s, CountDown(i))
    ensures Inv(Step(s, CountDown(i)))
  {
    CountAtLeast(s.members, Unfinished, i);
    Tallies(s, i, Step(s, CountDown(i)).members[i]);
  }

  lemma AcquireKeeps(s: State, i: nat)
    requires Inv(s) && Enabled(s, Acquire(i))
    ensures Inv(Step(s, Acquire(i)))
  {
    Tallies(s, i, Step(s, Acquire(i)).members[i]);
  }

  lemma ReadParentKeeps(s: State, i: nat)
    requires Inv(s) && Enabled(s, ReadParent(i))
    ensures Inv(Step(s, ReadParent(i)))
  {
    Tallies(s, i, Step(s, ReadParent(i)).members[i]);
  }

  lemma OneCloser(s: State, i: nat)
    requires Inv(s) && i < |s.members| && Closer(s.members[i])
    ensures s.count == 0 && forall j :: 0 <= j < |s.members| && j != i ==> !Closer(s.members[j])
  {
    CountAtLeast(s.members, Closer, i);
    forall j | 0 <= j < |s.members| && j != i ensures !Closer(s.members[j]) {
      if Closer(s.members[j]) {
        if i < j { CountTwo(s.members, Closer, i, j); } else { CountTwo(s.members, Closer, j, i); }
        assert false;
      }
    }
  }

  lemma WakeKeeps(s: State, i: nat)
    requires Inv(s) && Enabled(s, Wake(i))
    ensures Inv(Step(s, Wake(i)))
  {
    OneCloser(s, i);
    Tallies(s, i, Step(s, Wake(i)).members[i]);
  }

  lemma SyncDecrementKeeps(s: State, a: Action)
    requires Inv(s) && Enabled(s, a) && (a.Sync? || a.SyncLock? || a.SyncReturn?)
    ensures Inv(Step(s, a))
  {}

  lemma SyncCheckKeeps(s: State)
    requires Inv(s) && Enabled(s, SyncCheck)
    ensures Inv(Step(s, SyncCheck))
  {
    if s.count > 0 {
      forall j | 0 <= j < |s.members| ensures !Closer(s.members[j]) {
        if Closer(s.members[j]) { CountAtLeast(s.members, Closer, j); }
      }
    }
  }

  lemma SyncParkKeeps(s: State, a: Action)
    requires Inv(s) && Enabled(s, a) && (a.SyncPark? || a.SyncRelease?)
    ensures Inv(Step(s, a))
  {}

  lemma StepKeepsInv(s: State, a: Action)
    requires Inv(s) && NotYetFailed(s) && Enabled(s, a)
    ensures Inv(Step(s, a)) && NotYetFailed(Step(s, a))
  {
    NotYetFailedKept(s, a);
    match a
    case Spawn => AddKeeps(s, a);
    case SpawnFrom(_) => AddKeeps(s, a);
    case Report(i, failed) => ReportKeeps(s, i, failed);
    case CountDown(i) => CountDownKeeps(s, i);
    case Acquire(i) => AcquireKeeps(s, i);
    case ReadParent(i) => ReadParentKeeps(s, i);
    case Wake(i) => WakeKeeps(s, i);
    case SyncCheck => SyncCheckKeeps(s);
    case SyncPark => SyncParkKeeps(s, a);
    case SyncRelease => SyncParkKeeps(s, a);
    case _ => SyncDecrementKeeps(s, a);
  }

  lemma {:induction false} RunsKeepInv(trace: seq<State>, actions: seq<Action>, i: nat)
    requires IsRun(trace, actions) && i < |trace|
    ensures Inv(trace[i]) && NotYetFailed(trace[i])
  {
    if i > 0 {
      RunsKeepInv(trace, actions, i - 1);
      assert Moves(trace, actions, i - 1);
      StepKeepsInv(trace[i - 1], actions[i - 1]);
    }
  }

  /* ---- Theorems over every run ---- */

  /** coroc_group_sync returns only after every task has notified, with the number of tasks that
      notified with a non-zero value. */
  lemma SyncIsExact(trace: seq<State>, actions: seq<Action>, n: nat)
    requires IsRun(trace, actions) && n < |trace| && trace[n].parent.Returned?
    ensures var s := trace[n];
            && s.parent.result == Count(s.members, Failed)
            && forall i :: 0 <= i < |s.members| ==> !Unfinished(s.members[i])
  {
    RunsKeepInv(trace, actions, n);
    var s := trace[n];
    forall i | 0 <= i < |s.members| ensures !Unfinished(s.members[i]) {
      if Unfinished(s.members[i]) { CountAtLeast(s.members, Unfinished, i); }
    }
  }

  /* ---- The result against what the tasks reported ---- */

  /** How many of the first n actions satisfy p. */
  function Occurrences(actions: seq<Action>, n: nat, p: Action -> bool): nat
    requires n <= |actions|
  {
    Count(actions[..n], p)
  }

  predicate IsFailure(a: Action) { a.Report? && a.failed }

  predicate IsAdd(a: Action) { a.Spawn? || a.SpawnFrom? }

  function ReportOf(i: nat): Action -> bool { (a: Action) => a.Report? && a.i == i }

  lemma OccurrencesNext(actions: seq<Action>, n: nat, p: Action -> bool)
    requires n < |actions|
    ensures Occurrences(actions, n + 1, p) == Occurrences(actions, n, p) + One(p(actions[n]))
  {
    assert actions[..n + 1] == actions[..n] + [actions[n]];
    CountAppend(actions[..n], p, actions[n]);
  }

  /** `errors` is the number of failures reported, every add makes one member, and a member has reported
      once, or not at all while it works. */
  ghost predicate Accounted(s: State, actions: seq<Action>, n: nat)
    requires n <= |actions|
  {
    && s.errors == Occurrences(actions, n, IsFailure)
    && |s.members| == Occurrences(actions, n, IsAdd)
    && forall i: nat :: Occurrences(actions, n, ReportOf(i)) == One(i < |s.members| && !s.members[i].pc.Working?)
  }

  lemma AccountsStep(s: State, a: Action, s': State, i: nat)
    requires Enabled(s, a) && s' == Step(s, a)
    ensures s'.errors == s.errors + One(IsFailure(a)) && |s'.members| == |s.members| + One(IsAdd(a))
    ensures One(i < |s'.members| && !s'.members[i].pc.Working?) ==
            One(i < |s.members| && !s.members[i].pc.Working?) + One(ReportOf(i)(a))
  {}

  lemma {:induction false} RunsAreAccounted(trace: seq<State>, actions: seq<Action>, n: nat)
    requires IsRun(trace, actions) && n < |trace|
    ensures Accounted(trace[n], actions, n)
  {
    if n == 0 {
      assert actions[..0] == [];
    } else {
      RunsAreAccounted(trace, actions, n - 1);
      assert Moves(trace, actions, n - 1);
      OccurrencesNext(actions, n - 1, IsFailure);
      OccurrencesNext(actions, n - 1, IsAdd);
      AccountsStep(trace[n - 1], actions[n - 1], trace[n], 0);
      forall i: nat ensures Occurrences(actions, n, ReportOf(i)) == One(i < |trace[n].members| && !trace[n].members[i].pc.Working?) {
        assert Occurrences(actions, n - 1, ReportOf(i)) == One(i < |trace[n - 1].members| && !trace[n - 1].members[i].pc.Working?);
        OccurrencesNext(actions, n - 1, ReportOf(i));
        AccountsStep(trace[n - 1], actions[n - 1], trace[n], i);
      }
    }
  }

  /** What coroc_group_sync returns is the number of notifications with a non-zero value in the run so far,
      and by then every task that was added has notified exactly once. */
  lemma SyncCountsReports(trace: seq<State>, actions: seq<Action>, n: nat)
    requires IsRun(trace, actions) && n < |trace| && trace[n].parent.Returned?
    ensures trace[n].parent.result == Occurrences(actions, n, IsFailure)
    ensures |trace[n].members| == Occurrences(actions, n, IsAdd)
    ensures forall i: nat :: Occurrences(actions, n, ReportOf(i)) == One(i < |trace[n].members|)
  {
    RunsKeepInv(trace, actions, n);
    RunsAreAccounted(trace, actions, n);
    SyncIsExact(trace, actions, n);
    var s := trace[n];
    forall i: nat ensures Occurrences(actions, n, ReportOf(i)) == One(i < |s.members|) {
      assert Occurrences(actions, n, ReportOf(i)) == One(i < |s.members| && !s.members[i].pc.Working?);
      assert i < |s.members| ==> !Unfinished(s.members[i]);
    }
  }

  /** Every vpu_ready on the parent finds it suspended with the lock released; a parent is readied
      exactly once if it was suspended and never otherwise. */
  lemma ReadiedOnce(trace: seq<State>, actions: seq<Action>, n: nat)
    requires IsRun(trace, actions) && n < |trace|
    ensures trace[n].readies == One(WokenExit(trace[n].parent))
    ensures n < |actions| && actions[n].Wake? ==> trace[n].parent.Parked? && trace[n].count == 0 && trace[n].readies == 0
  {
    RunsKeepInv(trace, actions, n);
    if n < |actions| && actions[n].Wake? {
      assert Moves(trace, actions, n);
      CountAtLeast(trace[n].members, Closer, actions[n].i);
    }
  }

  /** A suspended parent is never stranded: some task has still to notify, or the one task whose
      notification reached zero is on its way to the wake-up and is not blocked. */
  lemma SuspendedParentWillBeWoken(s: State) returns (i: nat)
    requires Inv(s) && s.parent.Parked?
    ensures i < |s.members| && (if s.count > 0 then Unfinished(s.members[i]) else !s.members[i].pc.Closed?)
    ensures s.count == 0 ==> Enabled(s, Acquire(i)) || Enabled(s, ReadParent(i)) || Enabled(s, Wake(i))
  {
    if s.count > 0 {
      i := CountFinds(s.members, Unfinished);
    } else {
      i := CountFinds(s.members, Closer);
      if s.lock.Task? && s.lock.i != i {
        var j := s.lock.i;
        if i < j { CountTwo(s.members, Closer, i, j); } else { CountTwo(s.members, Closer, j, i); }
        assert false;
      }
    }
  }

  /** Sync returns with the group's lock held exactly if its own decrement left tasks behind but its
      second read of `count` gave zero. */
  lemma LockKeptIff(trace: seq<State>, actions: seq<Action>, n: nat)
    requires IsRun(trace, actions) && n < |trace| && trace[n].parent.Returned?
    ensures trace[n].lock.Parent? <==> exists m ::
              0 <= m < n && actions[m].SyncCheck? && trace[m].count == 0
  {
    RunsKeepInv(trace, actions, n);
    HowItLeft(trace, actions, n);
  }

  lemma LeakStep(s: State, a: Action, s': State)
    requires Inv(s) && Enabled(s, a) && s' == Step(s, a)
    ensures LeakExit(s'.parent) <==> LeakExit(s.parent) || (a.SyncCheck? && s.count == 0)
  {}

  lemma {:induction false} HowItLeft(trace: seq<State>, actions: seq<Action>, n: nat)
    requires IsRun(trace, actions) && n < |trace|
    ensures LeakExit(trace[n].parent) <==> exists m ::
              0 <= m < n && actions[m].SyncCheck? && trace[m].count == 0
  {
    if n > 0 {
      HowItLeft(trace, actions, n - 1);
      RunsKeepInv(trace, actions, n - 1);
      assert Moves(trace, actions, n - 1);
      LeakStep(trace[n - 1], actions[n - 1], trace[n]);
    }
  }

  /** The task still has group memory to touch. */
  predicate UsesGroup(m: Member) { Unfinished(m) || m.pc.Closing? || m.pc.Reading? }

  /** When sync returns without keeping the lock, no task touches the group again, so it can be freed. */
  lemma ReleasedGroupIsUnused(trace: seq<State>, actions: seq<Action>, n: nat)
    requires IsRun(trace, actions) && n < |trace| && trace[n].parent.Returned? && !trace[n].lock.Parent?
    ensures forall i :: 0 <= i < |trace[n].members| ==> !UsesGroup(trace[n].members[i])
  {
    RunsKeepInv(trace, actions, n);
    SyncIsExact(trace, actions, n);
    var s := trace[n];
    forall i | 0 <= i < |s.members| ensures !UsesGroup(s.members[i]) {
      if Closer(s.members[i]) { CountAtLeast(s.members, Closer, i); }
    }
  }

  /** When it returns with the lock kept, a task that still has to read `parent` waits for ever. */
  lemma {:induction false} KeptLockBlocksCloser(trace: seq<State>, actions: seq<Action>, n: nat, m: nat, i: nat)
    requires IsRun(trace, actions) && n <= m < |trace| && LeakExit(trace[n].parent) && At(trace[n], i, Closing)
    ensures LeakExit(trace[m].parent) && At(trace[m], i, Closing) && !Enabled(trace[m], Acquire(i))
    decreases m - n
  {
    RunsKeepInv(trace, actions, m);
    if n < m {
      var k := m - 1;
      KeptLockBlocksCloser(trace, actions, n, k, i);
      RunsKeepInv(trace, actions, k);
      assert Moves(trace, actions, k);
    }
  }

  lemma Extend(trace: seq<State>, actions: seq<Action>, a: Action) returns (longer: seq<State>, more: seq<Action>)
    requires IsRun(trace, actions) && Enabled(trace[|actions|], a)
    ensures IsRun(longer, more) && longer[|more|] == Step(trace[|actions|], a) && |more| == |actions| + 1
  {
    longer, more := trace + [Step(trace[|actions|], a)], actions + [a];
    forall i | 0 <= i < |more| ensures Moves(longer, more, i) {
      if i < |actions| { assert Moves(trace, actions, i); }
    }
  }

  /** A run in which that happens: the only task notifies between sync's decrement and its second read. */
  lemma SyncCanKeepLock() returns (trace: seq<State>, actions: seq<Action>)
    ensures IsRun(trace, actions)
    ensures var s := trace[|actions|];
            s.parent == Returned(SecondRead, 0) && s.lock.Parent? && s.members == [Member(Closing, false)]
  {
    trace, actions := [State(1, 0, Free, false, 0, Spawning, [])], [];
    trace, actions := Extend(trace, actions, Spawn);
    trace, actions := Extend(trace, actions, Sync);
    trace, actions := Extend(trace, actions, Report(0, false));
    trace, actions := Extend(trace, actions, CountDown(0));
    trace, actions := Extend(trace, actions, SyncLock);
    trace, actions := Extend(trace, actions, SyncCheck);
    trace, actions := Extend(trace, actions, SyncReturn);
  }
}
