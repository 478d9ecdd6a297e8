/** The three-state futex mutex of src/futex_lock.c.

    One action is one atomic access to `lock->key` or one futex system call; any number of
    threads interleave them.  The bounded spin counts are abstracted: a spinning thread may
    look at the key again or give up spinning at any time. */
module FutexLock {
  import opened Common

  datatype Key = Unlocked | Locked | Sleeping

  /** Where a thread is inside `_coroc_futex_lock` / `_coroc_futex_unlock`.  `wait` is the
      local variable of the same name: the value the thread will install when it wins. */
  datatype Pc =
    | Outside
    | Spinning(wait: Key)   // in the spin loops
    | Claiming(wait: Key)   // saw UNLOCKED, about to CAS
    | Dozing                // swapped SLEEPING in, about to call FUTEX_WAIT
    | Asleep                // blocked in FUTEX_WAIT
    | Holding
    | Waking                // released a SLEEPING key, about to call FUTEX_WAKE

  datatype State = State(key: Key, threads: seq<Pc>)

  datatype Action =
    | Arrive(t: nat)          // first exchange of lock()
    | TryLock(t: nat)
    | Look(t: nat)            // read the key in a spin loop
    | Claim(t: nat)           // CAS(UNLOCKED, wait)
    | Doze(t: nat)            // exchange with SLEEPING
    | Wait(t: nat)            // FUTEX_WAIT(SLEEPING)
    | Rouse(t: nat)           // FUTEX_WAIT returns on its own
    | Unlock(t: nat)          // exchange of unlock()
    | WakeOne(t: nat, u: nat) // FUTEX_WAKE(1) with a sleeper
    | WakeNone(t: nat)        // FUTEX_WAKE(1) without one

  predicate Sleeper(s: State, t: nat) {
    t < |s.threads| && s.threads[t].Asleep?
  }

  predicate Enabled(s: State, a: Action) {
    a.t < |s.threads| &&
    var pc := s.threads[a.t];
    match a
    case Arrive(_) => pc.Outside?
    case TryLock(_) => pc.Outside?
    case Look(_) => pc.Spinning?
    case Claim(_) => pc.Claiming?
    case Doze(_) => pc.Spinning?
    case Wait(_) => pc.Dozing?
    case Rouse(_) => pc.Asleep?
    case Unlock(_) => pc.Holding?
    case WakeOne(_, u) => pc.Waking? && Sleeper(s, u)
    case WakeNone(_) => pc.Waking? && Asleep !in s.threads
  }

  function Move(s: State, t: nat, key: Key, pc: Pc): State
    requires t < |s.threads|
  {
    State(key, s.threads[t := pc])
  }

  function Step(s: State, a: Action): State
    requires Enabled(s, a)
  {
    var t := a.t;
    match a
    case Arrive(_) =>
      Move(s, t, Locked, if s.key.Unlocked? then Holding else Spinning(s.key))
    case TryLock(_) =>
      if s.key.Unlocked? then Move(s, t, Locked, Holding) else s
    case Look(_) =>
      if s.key.Unlocked? then Move(s, t, s.key, Claiming(s.threads[t].wait)) else s
    case Claim(_) =>
      var wait := s.threads[t].wait;
      if s.key.Unlocked? then Move(s, t, wait, Holding) else Move(s, t, s.key, Spinning(wait))
    case Doze(_) =>
      Move(s, t, Sleeping, if s.key.Unlocked? then Holding else Dozing)
    case Wait(_) =>
      Move(s, t, s.key, if s.key.Sleeping? then Asleep else Spinning(Sleeping))
    case Rouse(_) =>
      Move(s, t, s.key, Spinning(Sleeping))
    case Unlock(_) =>
      Move(s, t, Unlocked, if s.key.Sleeping? then Waking else Outside)
    case WakeOne(_, u) =>
      Move(Move(s, t, s.key, Outside), u, s.key, Spinning(Sleeping))
    case WakeNone(_) =>
      Move(s, t, s.key, Outside)
  }

  predicate Init(s: State) {
    s.key.Unlocked? && forall t :: 0 <= t < |s.threads| ==> s.threads[t].Outside?
  }

  ghost predicate IsRun(trace: seq<State>, actions: seq<Action>) {
    |trace| == |actions| + 1 && Init(trace[0]) &&
    forall i :: 0 <= i < |actions| ==>
      Enabled(trace[i], actions[i]) && trace[i + 1] == Step(trace[i], actions[i])
  }

  /* ---- What every step keeps ---- */

  predicate Holds(s: State, t: nat) {
    t < |s.threads| && s.threads[t].Holding?
  }

  /** A non-sleeping thread that will install SLEEPING when it wins the lock. */
  predicate Remembers(s: State, t: nat) {
    t < |s.threads| &&
    match s.threads[t]
    case Spinning(wait) => wait.Sleeping?
    case Claiming(wait) => wait.Sleeping?
    case Dozing => true
    case _ => false
  }

  predicate OwesWake(s: State, t: nat) {
    t < |s.threads| && s.threads[t].Waking?
  }

  ghost predicate MutualExclusion(s: State) {
    forall t: nat, u: nat :: Holds(s, t) && Holds(s, u) ==> t == u
  }

  ghost predicate FreeIffNoHolder(s: State) {
    s.key.Unlocked? <==> forall t: nat :: !Holds(s, t)
  }

  predicate WaitNeverUnlocked(s: State) {
    forall t :: 0 <= t < |s.threads| && (s.threads[t].Spinning? || s.threads[t].Claiming?) ==>
      !s.threads[t].wait.Unlocked?
  }

  ghost predicate NoLostWakeup(s: State) {
    (exists t: nat :: Sleeper(s, t)) ==>
      s.key.Sleeping? || (exists t: nat :: Remembers(s, t) || OwesWake(s, t))
  }

  ghost predicate Inv(s: State) {
    MutualExclusion(s) && FreeIffNoHolder(s) && WaitNeverUnlocked(s) && NoLostWakeup(s)
  }

  lemma LockStep(s: State, a: Action)
    requires Inv(s) && Enabled(s, a)
    ensures MutualExclusion(Step(s, a)) && FreeIffNoHolder(Step(s, a)) && WaitNeverUnlocked(Step(s, a))
  {
    var s' := Step(s, a);
    assert forall u: nat :: u != a.t && Holds(s', u) ==> Holds(s, u);
    assert forall u: nat :: u != a.t && Holds(s, u) ==> Holds(s', u);
    assert a.Unlock? <==> Holds(s, a.t);
    if !s'.key.Unlocked? && !Holds(s', a.t) {
      var h: nat :| Holds(s, h);
      assert Holds(s', h);
    }
  }

  lemma WakeStep(s: State, a: Action)
    requires Inv(s) && Enabled(s, a)
    ensures NoLostWakeup(Step(s, a))
  {
    var s' := Step(s, a);
    if exists t: nat :: Sleeper(s', t) {
      var z: nat :| Sleeper(s', z);
      if a.Wait? || a.Rouse? || a.WakeOne? {
        assert a.WakeOne? ==> Remembers(s', a.u);
        assert Remembers(s', a.t) || s'.key.Sleeping? || a.WakeOne?;
      } else {
        assert Sleeper(s, z);
        assert s.key.Sleeping? ==> s'.key.Sleeping? || Remembers(s', a.t) || OwesWake(s', a.t);
        if !s.key.Sleeping? {
          var w: nat :| Remembers(s, w) || OwesWake(s, w);
          if w == a.t {
            assert s'.key.Sleeping? || Remembers(s', w);
          } else {
            assert Remembers(s', w) || OwesWake(s', w);
          }
        }
      }
    }
  }

  /** In every state of every run: at most one holder, the key is UNLOCKED exactly when there
      is none, and a sleeper is never forgotten. */
  lemma {:induction false} RunsAreSafe(trace: seq<State>, actions: seq<Action>)
    requires IsRun(trace, actions)
    ensures forall i :: 0 <= i < |trace| ==> Inv(trace[i])
  {
    if actions != [] {
      var n := |actions|;
      RunsAreSafe(trace[..n], actions[..n - 1]);
      assert Inv(trace[..n][n - 1]);
      LockStep(trace[n - 1], actions[n - 1]);
      WakeStep(trace[n - 1], actions[n - 1]);
    }
  }

  /** The assertion in unlock(): a holder never finds the key already UNLOCKED. */
  lemma UnlockAssertHolds(trace: seq<State>, actions: seq<Action>, i: nat)
    requires IsRun(trace, actions) && i < |actions| && actions[i].Unlock?
    ensures !trace[i].key.Unlocked?
  {
    RunsAreSafe(trace, actions);
    assert Holds(trace[i], actions[i].t);
  }

  /* ---- Refinement: the futex is a lock with an optional owner ---- */

  ghost function Owner(s: State): (o: set<nat>)
    requires Inv(s)
    ensures |o| <= 1
    ensures o == {} <==> s.key.Unlocked?
  {
    var o := set t: nat | t < |s.threads| && Holds(s, t);
    if o == {} then
      assert forall t: nat :: Holds(s, t) ==> t in o;
      o
    else
      var t :| t in o;
      assert o == {t};
      o
  }

  /** Every step either leaves the owner alone, takes a free lock for the acting thread, or
      frees the lock of the acting thread. */
  lemma StepRefinesLock(s: State, a: Action)
    requires Inv(s) && Enabled(s, a)
    ensures Inv(Step(s, a))
    ensures var (o, o') := (Owner(s), Owner(Step(s, a)));
            || o' == o
            || (o == {} && o' == {a.t} && (a.Arrive? || a.TryLock? || a.Claim? || a.Doze?))
            || (o == {a.t} && o' == {} && a.Unlock?)
    ensures a.Unlock? ==> Owner(s) == {a.t} && Owner(Step(s, a)) == {}
  {
    LockStep(s, a);
    WakeStep(s, a);
    var s' := Step(s, a);
    assert forall u: nat :: u != a.t ==> (Holds(s, u) <==> Holds(s', u));
    assert forall u: nat :: u in Owner(s) <==> Holds(s, u);
    assert forall u: nat :: u in Owner(s') <==> Holds(s', u);
  }

  /** A first exchange or a trylock on a free lock makes the acting thread its owner; on a held one a
      trylock changes nothing, and the newcomer goes on to wait and will remember a sleeper. */
  lemma ArrivalTakesFreeLock(s: State, a: Action)
    requires Inv(s) && Enabled(s, a) && (a.Arrive? || a.TryLock?)
    ensures Inv(Step(s, a))
    ensures s.key.Unlocked? ==> Owner(s) == {} && Owner(Step(s, a)) == {a.t} && Step(s, a).key.Locked?
    ensures !s.key.Unlocked? ==> Owner(Step(s, a)) == Owner(s)
    ensures !s.key.Unlocked? && a.TryLock? ==> Step(s, a) == s
    ensures !s.key.Unlocked? && a.Arrive? ==> Step(s, a).threads[a.t] == Spinning(s.key) && Step(s, a).key.Locked?
  {
    StepRefinesLock(s, a);
    if s.key.Unlocked? { assert Holds(Step(s, a), a.t) && forall u: nat :: !Holds(s, u); }
  }

  /** The holder's unlock frees the lock, and it goes on to wake somebody exactly if the key said SLEEPING. */
  lemma UnlockWakesIff(s: State, t: nat)
    requires Inv(s) && Enabled(s, Unlock(t))
    ensures var s' := Step(s, Unlock(t));
            Inv(s') && s'.key.Unlocked? && Owner(s') == {} && (OwesWake(s', t) <==> s.key.Sleeping?)
  {
    StepRefinesLock(s, Unlock(t));
  }

  /** A waiter that finds the lock free takes it at its CAS or at its exchange with SLEEPING, leaving the key
      as it remembered it or SLEEPING; one that does not keeps waiting. */
  lemma WaiterTakesFreeLock(s: State, a: Action)
    requires Inv(s) && Enabled(s, a) && (a.Claim? || a.Doze?)
    ensures var s' := Step(s, a);
            && Inv(s') && (s.key.Unlocked? <==> Holds(s', a.t))
            && (s.key.Unlocked? ==> s'.key == if a.Doze? then Sleeping else s.threads[a.t].wait)
            && (!s.key.Unlocked? ==> s'.threads[a.t] == if a.Doze? then Dozing else Spinning(s.threads[a.t].wait))
  {
    StepRefinesLock(s, a);
  }

  /** FUTEX_WAIT puts the thread to sleep exactly if the key still says SLEEPING, and changes nothing else. */
  lemma SleepsIff(s: State, t: nat)
    requires Enabled(s, Wait(t))
    ensures var s' := Step(s, Wait(t));
            && (Sleeper(s', t) <==> s.key.Sleeping?) && (!Sleeper(s', t) ==> Remembers(s', t))
            && s'.key == s.key && forall u :: 0 <= u < |s.threads| && u != t ==> s'.threads[u] == s.threads[u]
  {}

  /* ---- Progress: from every reachable state everyone can get out again ---- */

  predicate Inside(pc: Pc) { !pc.Outside? }

  function Busy(threads: seq<Pc>): nat {
    Count(threads, Inside)
  }

  /** `actions` lead from `s` to `s'` without a spontaneous return from FUTEX_WAIT. */
  ghost predicate Leads(s: State, actions: seq<Action>, s': State)
    decreases |actions|
  {
    if actions == [] then s == s'
    else Enabled(s, actions[0]) && !actions[0].Rouse? && Leads(Step(s, actions[0]), actions[1..], s')
  }

  lemma {:induction false} LeadsConcat(s: State, a: seq<Action>, m: State, b: seq<Action>, s': State)
    requires Leads(s, a, m) && Leads(m, b, s')
    ensures Leads(s, a + b, s')
    decreases |a|
  {
    if a == [] {
      assert a + b == b;
    } else {
      LeadsConcat(Step(s, a[0]), a[1..], m, b, s');
      assert (a + b)[1..] == a[1..] + b;
    }
  }

  lemma StepKeepsInv(s: State, a: Action)
    requires Inv(s) && Enabled(s, a)
    ensures Inv(Step(s, a))
  {
    LockStep(s, a);
    WakeStep(s, a);
  }

  /** A thread that owes a wake-up delivers it and leaves. */
  lemma WakerLeaves(s: State, t: nat) returns (a: Action)
    requires Inv(s) && OwesWake(s, t)
    ensures Enabled(s, a) && !a.Rouse?
    ensures Inv(Step(s, a)) && Busy(Step(s, a).threads) < Busy(s.threads)
  {
    if Asleep in s.threads {
      var u: nat :| u < |s.threads| && s.threads[u] == Asleep;
      assert Sleeper(s, u);
      a := WakeOne(t, u);
      CountUpdate(s.threads, Inside, t, Outside);
      CountUpdate(s.threads[t := Outside], Inside, u, Spinning(Sleeping));
    } else {
      a := WakeNone(t);
      CountUpdate(s.threads, Inside, t, Outside);
    }
    StepKeepsInv(s, a);
  }

  lemma HolderLeaves(s: State, t: nat) returns (actions: seq<Action>, s': State)
    requires Inv(s) && Holds(s, t)
    ensures Leads(s, actions, s') && Inv(s') && Busy(s'.threads) < Busy(s.threads)
  {
    var a := Unlock(t);
    var m := Step(s, a);
    StepKeepsInv(s, a);
    CountUpdate(s.threads, Inside, t, m.threads[t]);
    if s.key.Sleeping? {
      assert OwesWake(m, t);
      var b := WakerLeaves(m, t);
      actions, s' := [a, b], Step(m, b);
      assert Leads(m, [b], s') && [a, b][1..] == [b];
    } else {
      actions, s' := [a], m;
    }
  }

  /** With the lock free, a thread in the spin loops takes it. */
  lemma SpinnerWins(s: State, t: nat) returns (actions: seq<Action>, s': State)
    requires Inv(s) && s.key.Unlocked? && t < |s.threads|
    requires s.threads[t].Spinning? || s.threads[t].Claiming? || s.threads[t].Dozing?
    ensures Leads(s, actions, s') && Inv(s') && Holds(s', t) && Busy(s'.threads) == Busy(s.threads)
    decreases if s.threads[t].Dozing? then 2 else if s.threads[t].Spinning? then 1 else 0
  {
    var a := if s.threads[t].Dozing? then Wait(t) else if s.threads[t].Spinning? then Look(t) else Claim(t);
    var m := Step(s, a);
    StepKeepsInv(s, a);
    CountUpdate(s.threads, Inside, t, m.threads[t]);
    if a.Claim? {
      actions, s' := [a], m;
    } else {
      var rest;
      rest, s' := SpinnerWins(m, t);
      actions := [a] + rest;
      assert actions[1..] == rest;
    }
  }

  lemma SomeoneLeaves(s: State) returns (actions: seq<Action>, s': State)
    requires Inv(s) && Busy(s.threads) > 0
    ensures Leads(s, actions, s') && Inv(s') && Busy(s'.threads) < Busy(s.threads)
  {
    if t: nat :| Holds(s, t) {
      actions, s' := HolderLeaves(s, t);
    } else if t: nat :| OwesWake(s, t) {
      var a := WakerLeaves(s, t);
      actions, s' := [a], Step(s, a);
    } else {
      CountNone(s.threads, Inside);
      var z: nat :| z < |s.threads| && !s.threads[z].Outside?;
      var w := z;
      if s.threads[z].Asleep? {
        assert Sleeper(s, z);
        w :| Remembers(s, w);   // nobody holds the lock and nobody owes a wake
      }
      assert !Holds(s, w) && !OwesWake(s, w);
      var won, m := SpinnerWins(s, w);
      var left;
      left, s' := HolderLeaves(m, w);
      actions := won + left;
      LeadsConcat(s, won, m, left, s');
    }
  }

  /** No reachable state is stuck: holders releasing and the wake-ups the code itself sends
      are enough to bring every thread, sleepers included, out of the lock. */
  lemma {:induction false} EveryoneCanLeave(s: State) returns (actions: seq<Action>, s': State)
    requires Inv(s)
    ensures Leads(s, actions, s')
    ensures forall t :: 0 <= t < |s'.threads| ==> s'.threads[t].Outside?
    decreases Busy(s.threads)
  {
    CountNone(s.threads, Inside);
    if Busy(s.threads) == 0 {
      actions, s' := [], s;
    } else {
      var first, m := SomeoneLeaves(s);
      var rest;
      rest, s' := EveryoneCanLeave(m);
      actions := first + rest;
      LeadsConcat(s, first, m, rest, s');
    }
  }
}
