/** The ready counters and the sleep/wake protocol of src/vpu.c.

    The run queues are abstracted to a map from queued tasks to the priority level of the queue
    they are in (module WorkStealing shows that the queues neither lose nor duplicate tasks).
    One action is one atomic counter access, one queue operation, or one section under
    `vpu_manager.lock`.  `total_iowait` and `idle` are read nondeterministically: they only
    decide between branches that are both allowed here. */
module Scheduler {
  import opened Common

  const WORD: nat := 0x1_0000_0000
  const PRIOS: nat := 4                // TSC_PRIO_NUM

  type Task = int

  datatype Status = Waiting | Ready | Running | Exited

  /** A VPU thread.  `cur` is the coroutine on whose behalf vpu_ready runs, None when the
      scheduler itself polls. */
  datatype Vpu =
    | Search
    | Took(t: Task, p: nat)                   // removed from queue p, total_ready not yet decremented
    | Settling(t: Task, p: nat)               // ready[] not yet decremented
    | Run(t: Task)
    | OweTotal(p: nat, cur: Option<Task>)     // vpu_ready: queued, counters not yet incremented
    | OweReady(p: nat, cur: Option<Task>)
    | OweWake(cur: Option<Task>)
    | YieldReady(p: nat)                      // core_yield: the same in the other order
    | YieldTotal
    | Down                                    // holds the lock, alive already decremented
    | DownIdle                                // was the last one up and read total_ready == 0
    | Asleep                                  // in pthread_cond_wait, not signalled
    | Signalled                               // waiting for the lock to return from it

  /** A thread without a VPU that calls vpu_ready on task t. */
  datatype Async =
    | Quiet
    | AOweTotal(t: Task, p: nat)
    | AOweReady(t: Task, p: nat)
    | AOweWake(t: Task)

  /** `from` is history: the non-VPU thread that queued a task last, if it was one.  No branch of the
      program reads it. */
  datatype State = State(
    queued: map<Task, nat>, from: map<Task, nat>, prio: map<Task, nat>, status: map<Task, Status>,
    ready: seq<nat>, total: nat, alive: nat, lock: Option<nat>,
    vpus: seq<Vpu>, asyncs: seq<Async>)

  datatype Action =
    | Take(v: nat, t: Task)
    | Settle(v: nat)                          // the two decrements
    | MakeReady(v: nat, t: Task)
    | Count(v: nat)                           // the increments of vpu_ready and core_yield
    | Wake(v: nat, target: Option<nat>)       // vpu_wakeup_one
    | Yield(v: nat)
    | Leave(v: nat, exit: bool)               // core_wait or core_exit
    | SetPriority(v: nat, p: nat)
    | Drowse(v: nat)                          // take the lock and give up the alive count
    | Check(v: nat)
    | Doze(v: nat, iowait: bool)
    | Spurious(v: nat)
    | Rise(v: nat)
    | AMakeReady(a: nat, t: Task)
    | ACount(a: nat)
    | AWake(a: nat, target: Option<nat>)

  function Inc(x: nat): nat { (x + 1) % WORD }

  function Dec(x: nat): nat { (x - 1) % WORD }

  predicate Shape(s: State) {
    |s.ready| == PRIOS && s.prio.Keys == s.status.Keys && s.queued.Keys <= s.prio.Keys &&
    forall t :: t in s.prio ==> s.prio[t] < PRIOS
  }

  predicate CanReady(s: State, t: Task) {
    t in s.status && s.status[t].Waiting?
  }

  /** pthread_cond_signal in vpu_wakeup_one: always when nobody is up, otherwise depending on the
      `idle` and `total_ready` heuristics; it reaches a sleeper if there is one. */
  predicate CanSignal(s: State, target: Option<nat>) {
    s.lock.None? &&
    match target
    case Some(u) => u < |s.vpus| && s.vpus[u].Asleep? && s.alive < |s.vpus|
    case None => s.alive > 0 || Asleep !in s.vpus
  }

  predicate VpuAt(s: State, v: nat) { Shape(s) && v < |s.vpus| }

  predicate AsyncAt(s: State, a: nat) { Shape(s) && a < |s.asyncs| }

  predicate Enabled(s: State, a: Action) {
    match a
    case Take(v, t) => VpuAt(s, v) && s.vpus[v].Search? && t in s.queued
    case Settle(v) =>
      VpuAt(s, v) && (s.vpus[v].Took? || (s.vpus[v].Settling? && s.vpus[v].t in s.prio))
    case MakeReady(v, t) => VpuAt(s, v) && (s.vpus[v].Search? || s.vpus[v].Run?) && CanReady(s, t)
    case Count(v) =>
      VpuAt(s, v) &&
      (s.vpus[v].YieldTotal? || ((s.vpus[v].OweTotal? || s.vpus[v].OweReady? || s.vpus[v].YieldReady?) && s.vpus[v].p < PRIOS))
    case Wake(v, target) => VpuAt(s, v) && s.vpus[v].OweWake? && CanSignal(s, target)
    case Yield(v) =>
      VpuAt(s, v) && Current(s.vpus[v]).Some? && (s.vpus[v].Run? || s.vpus[v].OweWake?) && Current(s.vpus[v]).value in s.prio
    case Leave(v, _) => VpuAt(s, v) && s.vpus[v].Run?
    case SetPriority(v, p) => VpuAt(s, v) && s.vpus[v].Run? && s.vpus[v].t in s.prio && p < PRIOS
    case Drowse(v) => VpuAt(s, v) && s.vpus[v].Search? && s.lock.None? && s.alive > 0
    case Check(v) => VpuAt(s, v) && s.vpus[v].Down?
    case Doze(v, _) => VpuAt(s, v) && s.vpus[v].DownIdle?
    case Spurious(v) => VpuAt(s, v) && s.vpus[v].Asleep?
    case Rise(v) => VpuAt(s, v) && s.vpus[v].Signalled? && s.lock.None?
    case AMakeReady(x, t) => AsyncAt(s, x) && s.asyncs[x].Quiet? && CanReady(s, t)
    case ACount(x) => AsyncAt(s, x) && (s.asyncs[x].AOweTotal? || s.asyncs[x].AOweReady?) && s.asyncs[x].p < PRIOS
    case AWake(x, target) => AsyncAt(s, x) && s.asyncs[x].AOweWake? && CanSignal(s, target)
  }

  /** The task a VPU has in its hands. */
  function Current(x: Vpu): Option<Task> {
    match x
    case Took(t, _) => Some(t)
    case Settling(t, _) => Some(t)
    case Run(t) => Some(t)
    case OweTotal(_, cur) => cur
    case OweReady(_, cur) => cur
    case OweWake(cur) => cur
    case _ => None
  }

  function Resume(cur: Option<Task>): Vpu {
    if cur.None? then Search else Run(cur.value)
  }

  function Go(s: State, v: nat, x: Vpu): State
    requires v < |s.vpus|
  {
    s.(vpus := s.vpus[v := x])
  }

  function AGo(s: State, a: nat, x: Async): State
    requires a < |s.asyncs|
  {
    s.(asyncs := s.asyncs[a := x])
  }

  function Enqueue(s: State, t: Task): State
    requires t in s.prio
  {
    s.(queued := s.queued[t := s.prio[t]], from := s.from - {t}, status := s.status[t := Ready])
  }

  function Signal(s: State, target: Option<nat>): State
    requires target.Some? ==> target.value < |s.vpus|
  {
    if target.None? then s else Go(s, target.value, Signalled)
  }

  function IncReady(s: State, p: nat): State
    requires p < |s.ready|
  {
    s.(ready := s.ready[p := Inc(s.ready[p])])
  }

  function Step(s: State, a: Action): State
    requires Enabled(s, a)
  {
    match a
    case Take(v, t) => Go(s, v, Took(t, s.queued[t])).(queued := s.queued - {t})
    case Settle(v) => SettleStep(s, v)
    case MakeReady(v, t) => Go(Enqueue(s, t), v, OweTotal(s.prio[t], Current(s.vpus[v])))
    case Count(v) => CountStep(s, v)
    case Wake(v, target) => Signal(Go(s, v, Resume(s.vpus[v].cur)), target)
    case Yield(v) => var t := Current(s.vpus[v]).value; Go(Enqueue(s, t), v, YieldReady(s.prio[t]))
    case Leave(v, exit) => Go(s, v, Search).(status := s.status[s.vpus[v].t := if exit then Exited else Waiting])
    case SetPriority(v, p) => s.(prio := s.prio[s.vpus[v].t := p])
    case Drowse(v) => Go(s, v, Down).(alive := s.alive - 1, lock := Some(v))
    case Check(v) =>
      if s.alive > 0 then Go(s, v, Asleep).(lock := None)
      else if s.total == 0 then Go(s, v, DownIdle)
      else Go(s, v, Search).(alive := s.alive + 1, lock := None)
    case Doze(v, iowait) =>
      if iowait then Go(s, v, Asleep).(lock := None)
      else Go(s, v, Search).(alive := s.alive + 1, lock := None)
    case Spurious(v) => Go(s, v, Signalled)
    case Rise(v) => Go(s, v, Search).(alive := s.alive + 1)
    case AMakeReady(x, t) => AGo(Enqueue(s, t), x, AOweTotal(t, s.prio[t])).(from := s.from[t := x])
    case ACount(x) =>
      var t := s.asyncs[x].t;
      if s.asyncs[x].AOweTotal? then AGo(s, x, AOweReady(t, s.asyncs[x].p)).(total := Inc(s.total))
      else AGo(IncReady(s, s.asyncs[x].p), x, AOweWake(t))
    case AWake(x, target) => Signal(AGo(s, x, Quiet), target)
  }

  /** core_sched: total_ready first, then ready[candidate->priority]. */
  function SettleStep(s: State, v: nat): State
    requires Enabled(s, Settle(v))
  {
    match s.vpus[v]
    case Took(t, p) => Go(s, v, Settling(t, p)).(total := Dec(s.total))
    case Settling(t, p) =>
      Go(s, v, Run(t)).(status := s.status[t := Running],
                        ready := s.ready[s.prio[t] := Dec(s.ready[s.prio[t]])])
  }

  /** vpu_ready counts total_ready then ready[]; core_yield the other way round. */
  function CountStep(s: State, v: nat): State
    requires Enabled(s, Count(v))
  {
    match s.vpus[v]
    case OweTotal(p, cur) => Go(s, v, OweReady(p, cur)).(total := Inc(s.total))
    case OweReady(p, cur) => Go(IncReady(s, p), v, OweWake(cur))
    case YieldReady(p) => Go(IncReady(s, p), v, YieldTotal)
    case YieldTotal => Go(s, v, Search).(total := Inc(s.total))
  }

  predicate Init(s: State) {
    Shape(s) && s.queued == map[] && s.from == map[] && s.ready == [0, 0, 0, 0] && s.total == 0 &&
    s.alive == |s.vpus| && s.lock.None? &&
    (forall v :: 0 <= v < |s.vpus| ==> s.vpus[v].Search?) &&
    (forall a :: 0 <= a < |s.asyncs| ==> s.asyncs[a].Quiet?) &&
    (forall t :: t in s.status ==> s.status[t].Waiting?) &&
    |s.prio| + |s.asyncs| < WORD
  }

  /* ---- Where the tasks are ---- */

  predicate Holds(x: Vpu, t: Task) { Current(x) == Some(t) }

  /** A VPU is consistent with the task it holds. */
  predicate VpuOk(s: State, x: Vpu)
    requires Shape(s)
  {
    (Current(x).Some? ==>
      var t := Current(x).value;
      t in s.status && t !in s.queued && s.status[t] == (if x.Took? || x.Settling? then Ready else Running)) &&
    ((x.Took? || x.Settling?) ==> x.t in s.prio && x.p == s.prio[x.t]) &&
    ((x.OweTotal? || x.OweReady? || x.YieldReady?) ==> x.p < PRIOS)
  }

  predicate AsyncOk(x: Async) {
    (x.AOweTotal? || x.AOweReady?) ==> x.p < PRIOS
  }

  ghost predicate TasksOk(s: State) {
    Shape(s) &&
    (forall t :: t in s.queued ==> s.queued[t] == s.prio[t] && s.status[t].Ready?) &&
    (forall v :: 0 <= v < |s.vpus| ==> VpuOk(s, s.vpus[v])) &&
    (forall a :: 0 <= a < |s.asyncs| ==> AsyncOk(s.asyncs[a])) &&
    (forall u, v, t :: 0 <= u < v < |s.vpus| && Holds(s.vpus[u], t) ==> !Holds(s.vpus[v], t))
  }

  /** A step that changes one VPU and leaves every other task alone. */
  lemma VpuStep(s: State, s': State, v: nat, x: Vpu)
    requires TasksOk(s) && Shape(s') && v < |s.vpus| && s'.vpus == s.vpus[v := x] && VpuOk(s', x)
    requires s'.asyncs == s.asyncs
    requires forall t :: t in s'.queued ==> s'.queued[t] == s'.prio[t] && s'.status[t].Ready?
    requires forall t :: t in s.status && !Holds(s.vpus[v], t) && !Holds(x, t) ==>
      t in s'.status && s'.status[t] == s.status[t] && s'.prio[t] == s.prio[t] && (t in s'.queued <==> t in s.queued)
    requires forall t :: Holds(x, t) ==> Holds(s.vpus[v], t) || t in s.queued
    ensures TasksOk(s')
  {
    forall u | 0 <= u < |s.vpus| ensures VpuOk(s', s'.vpus[u]) {
      assert VpuOk(s, s.vpus[u]);
      if u != v && Current(s.vpus[u]).Some? {
        var t := Current(s.vpus[u]).value;
        assert Holds(s.vpus[u], t);
        if u > v && Holds(s.vpus[v], t) { assert false; }
      }
    }
    forall u, w, t | 0 <= u < w < |s'.vpus| && Holds(s'.vpus[u], t) ensures !Holds(s'.vpus[w], t) {
      assert VpuOk(s, s.vpus[u]) && VpuOk(s, s.vpus[w]);
    }
  }

  lemma TakeTasks(s: State, a: Action)
    requires TasksOk(s) && Enabled(s, a) && (a.Take? || a.Settle?)
    ensures TasksOk(Step(s, a))
  {
    assert VpuOk(s, s.vpus[a.v]);
    VpuStep(s, Step(s, a), a.v, Step(s, a).vpus[a.v]);
  }

  lemma RunTasks(s: State, a: Action)
    requires TasksOk(s) && Enabled(s, a) && (a.Leave? || a.SetPriority? || a.Yield?)
    ensures TasksOk(Step(s, a))
  {
    assert VpuOk(s, s.vpus[a.v]);
    assert s.vpus[a.v := s.vpus[a.v]] == s.vpus;
    VpuStep(s, Step(s, a), a.v, Step(s, a).vpus[a.v]);
  }

  lemma CountTasks(s: State, a: Action)
    requires TasksOk(s) && Enabled(s, a) && a.Count?
    ensures TasksOk(Step(s, a))
  {
    assert VpuOk(s, s.vpus[a.v]);
    VpuStep(s, Step(s, a), a.v, Step(s, a).vpus[a.v]);
  }

  lemma SleepTasks(s: State, a: Action)
    requires TasksOk(s) && Enabled(s, a) && (a.Check? || a.Doze?)
    ensures TasksOk(Step(s, a))
  {
    VpuStep(s, Step(s, a), a.v, Step(s, a).vpus[a.v]);
  }

  lemma MoveTasks(s: State, a: Action)
    requires TasksOk(s) && Enabled(s, a) && (a.Drowse? || a.Spurious? || a.Rise?)
    ensures TasksOk(Step(s, a))
  {
    VpuStep(s, Step(s, a), a.v, Step(s, a).vpus[a.v]);
  }

  lemma SignalTasks(s: State, target: Option<nat>)
    requires TasksOk(s) && (target.Some? ==> target.value < |s.vpus| && s.vpus[target.value].Asleep?)
    ensures TasksOk(Signal(s, target))
  {
    if target.Some? { VpuStep(s, Signal(s, target), target.value, Signalled); }
  }

  lemma WakeTasks(s: State, a: Action)
    requires TasksOk(s) && Enabled(s, a) && (a.Wake? || a.AWake?)
    ensures TasksOk(Step(s, a))
  {
    if a.Wake? {
      assert VpuOk(s, s.vpus[a.v]);
      var m := Go(s, a.v, Resume(s.vpus[a.v].cur));
      VpuStep(s, m, a.v, Resume(s.vpus[a.v].cur));
      SignalTasks(m, a.target);
    } else {
      SignalTasks(AGo(s, a.a, Quiet), a.target);
    }
  }

  lemma ReadyTasks(s: State, a: Action)
    requires TasksOk(s) && Enabled(s, a) && a.MakeReady?
    ensures TasksOk(Step(s, a))
  {
    var s' := Step(s, a);
    forall v | 0 <= v < |s.vpus| ensures VpuOk(s', s'.vpus[v]) {
      assert VpuOk(s, s.vpus[v]);
    }
  }

  lemma AsyncTasks(s: State, a: Action)
    requires TasksOk(s) && Enabled(s, a) && (a.AMakeReady? || a.ACount?)
    ensures TasksOk(Step(s, a))
  {
    var s' := Step(s, a);
    forall v | 0 <= v < |s.vpus| ensures VpuOk(s', s'.vpus[v]) {
      assert VpuOk(s, s.vpus[v]);
    }
  }

  lemma TasksStep(s: State, a: Action)
    requires TasksOk(s) && Enabled(s, a)
    ensures TasksOk(Step(s, a))
  {
    if a.Take? || a.Settle? { TakeTasks(s, a); }
    else if a.Leave? || a.SetPriority? || a.Yield? { RunTasks(s, a); }
    else if a.Count? { CountTasks(s, a); }
    else if a.Wake? || a.AWake? { WakeTasks(s, a); }
    else if a.MakeReady? { ReadyTasks(s, a); }
    else if a.AMakeReady? || a.ACount? { AsyncTasks(s, a); }
    else if a.Check? || a.Doze? { SleepTasks(s, a); }
    else { MoveTasks(s, a); }
  }

  /* ---- Sums over threads ---- */

  /** What is being counted: contributions to total_ready, to ready[p], VPUs that have given up
      their alive count, and non-VPU threads that still owe a vpu_wakeup_one. */
  datatype Tally = OfTotal | OfReady(p: nat) | OfDown | OfWake

  function Weight(x: Vpu, q: Tally): int {
    match q
    case OfTotal => if x.Took? then 1 else if x.OweTotal? || x.YieldReady? || x.YieldTotal? then -1 else 0
    case OfReady(p) =>
      if (x.Took? || x.Settling?) && x.p == p then 1
      else if (x.OweTotal? || x.OweReady? || x.YieldReady?) && x.p == p then -1
      else 0
    case OfDown => if x.Down? || x.DownIdle? || x.Asleep? || x.Signalled? then 1 else 0
    case OfWake => 0
  }

  function AWeight(x: Async, q: Tally): int {
    match q
    case OfTotal => if x.AOweTotal? then -1 else 0
    case OfReady(p) => if (x.AOweTotal? || x.AOweReady?) && x.p == p then -1 else 0
    case OfDown => 0
    case OfWake => if x.Quiet? then 0 else 1
  }

  function Weights(q: Tally): Vpu -> int { x => Weight(x, q) }

  function AWeights(q: Tally): Async -> int { x => AWeight(x, q) }

  function VSum(vpus: seq<Vpu>, q: Tally): int { Sum(vpus, Weights(q)) }

  function ASum(asyncs: seq<Async>, q: Tally): int { Sum(asyncs, AWeights(q)) }

  lemma {:induction false} SumDown(vpus: seq<Vpu>)
    ensures 0 <= VSum(vpus, OfDown) <= |vpus|
    ensures VSum(vpus, OfDown) == |vpus| <==> forall v :: 0 <= v < |vpus| ==> Weight(vpus[v], OfDown) == 1
  {
    if vpus != [] {
      SumDown(vpus[..|vpus| - 1]);
      assert forall v :: 0 <= v < |vpus| - 1 ==> vpus[v] == vpus[..|vpus| - 1][v];
    }
  }

  /** Every thread that has yet to count a task also still owes a wake-up. */
  lemma {:induction false} UncountedOweWake(asyncs: seq<Async>)
    ensures 0 <= -ASum(asyncs, OfTotal) <= ASum(asyncs, OfWake) <= |asyncs|
  {
    if asyncs != [] { UncountedOweWake(asyncs[..|asyncs| - 1]); }
  }

  /* ---- The counters ---- */

  /** The tasks in the queues of priority p. */
  function At(queued: map<Task, nat>, p: nat): set<Task> {
    set t | t in queued && queued[t] == p
  }

  function InQueues(s: State, q: Tally): nat {
    match q
    case OfTotal => |s.queued|
    case OfReady(p) => |At(s.queued, p)|
    case _ => 0
  }

  /** Queued tasks, plus tasks taken but not yet discounted, minus tasks queued but not yet
      counted. */
  function Expected(s: State, q: Tally): int {
    InQueues(s, q) + VSum(s.vpus, q) + ASum(s.asyncs, q)
  }

  predicate IsCounter(q: Tally) { q.OfTotal? || (q.OfReady? && q.p < PRIOS) }

  function Counter(s: State, q: Tally): nat
    requires Shape(s) && IsCounter(q)
  {
    if q.OfTotal? then s.total else s.ready[q.p]
  }

  ghost predicate CounterOk(s: State, q: Tally)
    requires Shape(s) && IsCounter(q)
  {
    Counter(s, q) == Expected(s, q) % WORD
  }

  ghost predicate CountersOk(s: State) {
    Shape(s) && forall q :: IsCounter(q) ==> CounterOk(s, q)
  }

  /** A counter stays right when it moves by as much as what it should count. */
  lemma Follows(s: State, s': State, q: Tally)
    requires Shape(s) && Shape(s') && IsCounter(q) && CounterOk(s, q)
    requires var (d, c) := (Expected(s', q) - Expected(s, q), Counter(s, q));
             (d == 0 && Counter(s', q) == c) || (d == 1 && Counter(s', q) == Inc(c)) || (d == -1 && Counter(s', q) == Dec(c))
    ensures CounterOk(s', q)
  {
    NextWord(Expected(s, q));
    NextWord(Expected(s, q) - 1);
  }

  lemma NextWord(x: int)
    ensures (x + 1) % WORD == Inc(x % WORD) && x % WORD == Dec((x + 1) % WORD)
  {}

  lemma AtAdd(queued: map<Task, nat>, t: Task, p: nat, q: Tally)
    requires t !in queued
    ensures |queued[t := p]| == |queued| + 1
    ensures q.OfReady? ==> |At(queued[t := p], q.p)| == |At(queued, q.p)| + (if p == q.p then 1 else 0)
  {
    assert queued[t := p].Keys == queued.Keys + {t};
    if q.OfReady? {
      var before, after := At(queued, q.p), At(queued[t := p], q.p);
      if p == q.p {
        assert after == before + {t};
      } else {
        assert after == before;
      }
    }
  }

  lemma AtRemove(queued: map<Task, nat>, t: Task, q: Tally)
    requires t in queued
    ensures |queued - {t}| == |queued| - 1
    ensures q.OfReady? ==> |At(queued - {t}, q.p)| == |At(queued, q.p)| - (if queued[t] == q.p then 1 else 0)
  {
    assert (queued - {t}).Keys == queued.Keys - {t};
    if q.OfReady? {
      var before, after := At(queued, q.p), At(queued - {t}, q.p);
      if queued[t] == q.p {
        assert after == before - {t};
      } else {
        assert after == before;
      }
    }
  }

  lemma VpuExpected(s: State, s': State, v: nat, q: Tally)
    requires v < |s.vpus| && |s'.vpus| == |s.vpus| && s'.vpus == s.vpus[v := s'.vpus[v]] && s'.asyncs == s.asyncs
    ensures Expected(s', q) - Expected(s, q) ==
            InQueues(s', q) - InQueues(s, q) + Weight(s'.vpus[v], q) - Weight(s.vpus[v], q)
  {
    SumUpdate(s.vpus, Weights(q), v, s'.vpus[v]);
  }

  lemma TakeCounter(s: State, v: nat, t: Task, q: Tally)
    requires Shape(s) && Enabled(s, Take(v, t)) && IsCounter(q) && CounterOk(s, q)
    ensures Shape(Step(s, Take(v, t))) && CounterOk(Step(s, Take(v, t)), q)
  {
    var s' := Step(s, Take(v, t));
    VpuExpected(s, s', v, q);
    AtRemove(s.queued, t, q);
    Follows(s, s', q);
  }

  lemma SettleCounter(s: State, v: nat, q: Tally)
    requires TasksOk(s) && Enabled(s, Settle(v)) && IsCounter(q) && CounterOk(s, q)
    ensures Shape(SettleStep(s, v)) && CounterOk(SettleStep(s, v), q)
  {
    var s' := SettleStep(s, v);
    assert VpuOk(s, s.vpus[v]);
    VpuExpected(s, s', v, q);
    Follows(s, s', q);
  }

  lemma ReadyCounter(s: State, v: nat, t: Task, q: Tally)
    requires TasksOk(s) && Enabled(s, MakeReady(v, t)) && IsCounter(q) && CounterOk(s, q)
    ensures Shape(Step(s, MakeReady(v, t))) && CounterOk(Step(s, MakeReady(v, t)), q)
  {
    var s' := Step(s, MakeReady(v, t));
    VpuExpected(s, s', v, q);
    AtAdd(s.queued, t, s.prio[t], q);
    Follows(s, s', q);
  }

  lemma YieldCounter(s: State, v: nat, q: Tally)
    requires TasksOk(s) && Enabled(s, Yield(v)) && IsCounter(q) && CounterOk(s, q)
    ensures Shape(Step(s, Yield(v))) && CounterOk(Step(s, Yield(v)), q)
  {
    var (t, s') := (Current(s.vpus[v]).value, Step(s, Yield(v)));
    assert VpuOk(s, s.vpus[v]);
    VpuExpected(s, s', v, q);
    AtAdd(s.queued, t, s.prio[t], q);
    Follows(s, s', q);
  }

  lemma CountCounter(s: State, v: nat, q: Tally)
    requires Enabled(s, Count(v)) && IsCounter(q) && CounterOk(s, q)
    ensures Shape(CountStep(s, v)) && CounterOk(CountStep(s, v), q)
  {
    var s' := CountStep(s, v);
    VpuExpected(s, s', v, q);
    Follows(s, s', q);
  }

  lemma AReadyCounter(s: State, x: nat, t: Task, q: Tally)
    requires TasksOk(s) && Enabled(s, AMakeReady(x, t)) && IsCounter(q) && CounterOk(s, q)
    ensures Shape(Step(s, AMakeReady(x, t))) && CounterOk(Step(s, AMakeReady(x, t)), q)
  {
    var s' := Step(s, AMakeReady(x, t));
    SumUpdate(s.asyncs, AWeights(q), x, s'.asyncs[x]);
    AtAdd(s.queued, t, s.prio[t], q);
    Follows(s, s', q);
  }

  lemma ACountCounter(s: State, x: nat, q: Tally)
    requires Enabled(s, ACount(x)) && IsCounter(q) && CounterOk(s, q)
    ensures Shape(Step(s, ACount(x))) && CounterOk(Step(s, ACount(x)), q)
  {
    var s' := Step(s, ACount(x));
    SumUpdate(s.asyncs, AWeights(q), x, s'.asyncs[x]);
    Follows(s, s', q);
  }

  lemma SignalSum(s: State, target: Option<nat>, q: Tally)
    requires target.Some? ==> target.value < |s.vpus| && s.vpus[target.value].Asleep?
    ensures VSum(Signal(s, target).vpus, q) == VSum(s.vpus, q)
  {
    if target.Some? { SumUpdate(s.vpus, Weights(q), target.value, Signalled); }
  }

  lemma WakeCounter(s: State, a: Action, q: Tally)
    requires Enabled(s, a) && a.Wake? && IsCounter(q) && CounterOk(s, q)
    ensures Shape(Step(s, a)) && CounterOk(Step(s, a), q)
  {
    var m := Go(s, a.v, Resume(s.vpus[a.v].cur));
    VpuExpected(s, m, a.v, q);
    SignalSum(m, a.target, q);
  }

  lemma AWakeCounter(s: State, a: Action, q: Tally)
    requires Enabled(s, a) && a.AWake? && IsCounter(q) && CounterOk(s, q)
    ensures Shape(Step(s, a)) && CounterOk(Step(s, a), q)
  {
    SumUpdate(s.asyncs, AWeights(q), a.a, Quiet);
    SignalSum(AGo(s, a.a, Quiet), a.target, q);
  }

  lemma RunCounter(s: State, a: Action, q: Tally)
    requires Enabled(s, a) && Shape(Step(s, a)) && IsCounter(q) && CounterOk(s, q) && (a.Leave? || a.SetPriority?)
    ensures CounterOk(Step(s, a), q)
  {
    SumUpdate(s.vpus, Weights(q), a.v, Search);
    Follows(s, Step(s, a), q);
  }

  /** A VPU that only goes up or down leaves the counters right. */
  lemma QuietCounter(s: State, s': State, v: nat, q: Tally)
    requires Shape(s) && IsCounter(q) && CounterOk(s, q) && v < |s.vpus|
    requires |s'.vpus| == |s.vpus| && s'.vpus == s.vpus[v := s'.vpus[v]] && Weight(s.vpus[v], q) == 0 && Weight(s'.vpus[v], q) == 0
    requires s'.queued == s.queued && s'.prio == s.prio && s'.status == s.status && s'.asyncs == s.asyncs
    requires s'.ready == s.ready && s'.total == s.total
    ensures Shape(s') && CounterOk(s', q)
  {
    VpuExpected(s, s', v, q);
  }

  lemma CheckCounter(s: State, v: nat, q: Tally)
    requires Enabled(s, Check(v)) && IsCounter(q) && CounterOk(s, q)
    ensures Shape(Step(s, Check(v))) && CounterOk(Step(s, Check(v)), q)
  {
    QuietCounter(s, Step(s, Check(v)), v, q);
  }

  lemma DozeCounter(s: State, a: Action, q: Tally)
    requires Enabled(s, a) && IsCounter(q) && CounterOk(s, q) && (a.Doze? || a.Spurious?)
    ensures Shape(Step(s, a)) && CounterOk(Step(s, a), q)
  {
    QuietCounter(s, Step(s, a), a.v, q);
  }

  lemma MoveCounter(s: State, a: Action, q: Tally)
    requires Enabled(s, a) && IsCounter(q) && CounterOk(s, q) && (a.Drowse? || a.Rise?)
    ensures Shape(Step(s, a)) && CounterOk(Step(s, a), q)
  {
    QuietCounter(s, Step(s, a), a.v, q);
  }

  lemma CountersStep(s: State, a: Action)
    requires TasksOk(s) && CountersOk(s) && Enabled(s, a)
    ensures CountersOk(Step(s, a))
  {
    TasksStep(s, a);
    forall q | IsCounter(q) ensures CounterOk(Step(s, a), q) {
      assert CounterOk(s, q);
      if a.Take? { TakeCounter(s, a.v, a.t, q); }
      else if a.Settle? { SettleCounter(s, a.v, q); }
      else if a.MakeReady? { ReadyCounter(s, a.v, a.t, q); }
      else if a.Yield? { YieldCounter(s, a.v, q); }
      else if a.Count? { CountCounter(s, a.v, q); }
      else if a.AMakeReady? { AReadyCounter(s, a.a, a.t, q); }
      else if a.ACount? { ACountCounter(s, a.a, q); }
      else if a.Wake? { WakeCounter(s, a, q); }
      else if a.AWake? { AWakeCounter(s, a, q); }
      else if a.Leave? || a.SetPriority? { RunCounter(s, a, q); }
      else if a.Check? { CheckCounter(s, a.v, q); }
      else if a.Doze? || a.Spurious? { DozeCounter(s, a, q); }
      else { MoveCounter(s, a, q); }
    }
  }

  /* ---- Sleeping and waking ---- */

  predicate AllAsleep(s: State) {
    forall v :: 0 <= v < |s.vpus| ==> s.vpus[v].Asleep?
  }

  /** The last VPU is going to sleep, or all sleep. */
  predicate Resting(s: State) { AllAsleep(s) || DownIdle in s.vpus }

  /** `alive` counts the VPUs that are up, and the lock is held exactly by a VPU that is deciding
      whether to sleep. */
  ghost predicate AliveOk(s: State) {
    s.alive + VSum(s.vpus, OfDown) == |s.vpus| &&
    (s.lock.Some? ==> s.lock.value < |s.vpus|) &&
    forall v :: 0 <= v < |s.vpus| ==> (s.lock == Some(v) <==> s.vpus[v].Down? || s.vpus[v].DownIdle?)
  }

  /** The number of non-VPU threads between enqueueing a task and their vpu_wakeup_one. */
  function Announcers(s: State): int { ASum(s.asyncs, OfWake) }

  ghost predicate SleepOk(s: State) {
    (AllAsleep(s) ==> |s.queued| <= Announcers(s)) &&
    (DownIdle in s.vpus ==> s.alive == 0 && |s.queued| <= Announcers(s))
  }

  ghost predicate Bounded(s: State) {
    |s.vpus| > 0 && |s.prio| + |s.asyncs| < WORD
  }

  ghost predicate Inv(s: State) {
    TasksOk(s) && CountersOk(s) && AliveOk(s) && SleepOk(s) && Bounded(s)
  }

  lemma AliveVpu(s: State, s': State, v: nat, x: Vpu)
    requires AliveOk(s) && v < |s.vpus| && s'.vpus == s.vpus[v := x]
    requires s'.alive == s.alive + Weight(s.vpus[v], OfDown) - Weight(x, OfDown)
    requires if x.Down? || x.DownIdle? then s'.lock == Some(v) && (s.lock.None? || s.lock == Some(v))
             else s'.lock == if s.lock == Some(v) then None else s.lock
    ensures AliveOk(s')
  {
    SumUpdate(s.vpus, Weights(OfDown), v, x);
  }

  lemma AliveTask(s: State, a: Action)
    requires Enabled(s, a) && AliveOk(s)
    requires a.Take? || a.Settle? || a.MakeReady? || a.Count? || a.Yield? || a.Leave?
    ensures AliveOk(Step(s, a))
  {
    AliveVpu(s, Step(s, a), a.v, Step(s, a).vpus[a.v]);
  }

  lemma AliveSleep(s: State, a: Action)
    requires Enabled(s, a) && AliveOk(s) && (a.Drowse? || a.Check? || a.Doze? || a.Spurious? || a.Rise?)
    ensures AliveOk(Step(s, a))
  {
    SumDown(s.vpus);
    AliveVpu(s, Step(s, a), a.v, Step(s, a).vpus[a.v]);
  }

  lemma AliveSignal(s: State, target: Option<nat>)
    requires AliveOk(s) && (target.Some? ==> target.value < |s.vpus| && s.vpus[target.value].Asleep?)
    ensures AliveOk(Signal(s, target))
  {
    if target.Some? { AliveVpu(s, Signal(s, target), target.value, Signalled); }
  }

  lemma AliveWake(s: State, a: Action)
    requires Enabled(s, a) && AliveOk(s) && (a.Wake? || a.AWake?)
    ensures AliveOk(Step(s, a))
  {
    if a.Wake? {
      var x := Resume(s.vpus[a.v].cur);
      AliveVpu(s, Go(s, a.v, x), a.v, x);
      AliveSignal(Go(s, a.v, x), a.target);
    } else {
      AliveSignal(AGo(s, a.a, Quiet), a.target);
    }
  }

  lemma AliveStep(s: State, a: Action)
    requires Enabled(s, a) && AliveOk(s)
    ensures AliveOk(Step(s, a))
  {
    if a.Wake? || a.AWake? { AliveWake(s, a); }
    else if a.Drowse? || a.Check? || a.Doze? || a.Spurious? || a.Rise? { AliveSleep(s, a); }
    else if a.Take? || a.Settle? || a.MakeReady? || a.Count? || a.Yield? || a.Leave? { AliveTask(s, a); }
  }

  lemma NobodyUp(s: State, v: nat)
    requires AliveOk(s) && s.alive == 0 && v < |s.vpus|
    ensures Weight(s.vpus[v], OfDown) == 1
  {
    SumDown(s.vpus);
  }

  /** Thread a has still to count its task. */
  predicate Uncounted(s: State, a: nat) {
    a < |s.asyncs| && s.asyncs[a].AOweTotal?
  }

  function UncountedThreads(s: State): set<nat> {
    set a: nat | a < |s.asyncs| && Uncounted(s, a)
  }

  lemma {:induction false} UncountedAre(asyncs: seq<Async>)
    ensures |set a: nat | a < |asyncs| && asyncs[a].AOweTotal?| == -ASum(asyncs, OfTotal)
  {
    if asyncs != [] {
      var n := |asyncs| - 1;
      UncountedAre(asyncs[..n]);
      var before := set a: nat | a < n && asyncs[..n][a].AOweTotal?;
      var all := set a: nat | a < |asyncs| && asyncs[a].AOweTotal?;
      assert all == if asyncs[n].AOweTotal? then before + {n} else before;
    }
  }

  /** With all VPUs down, none has anything to count. */
  lemma NobodyCounts(s: State)
    requires AliveOk(s) && s.alive == 0
    ensures VSum(s.vpus, OfTotal) == 0
  {
    forall v | 0 <= v < |s.vpus| ensures Weight(s.vpus[v], OfTotal) == 0 {
      NobodyUp(s, v);
    }
    SumZero(s.vpus, Weights(OfTotal));
  }

  /** The last VPU up reads total_ready == 0: exactly as many tasks are queued as threads have yet to
      count theirs. */
  lemma ZeroMeansAsMany(s: State)
    requires TasksOk(s) && CountersOk(s) && AliveOk(s) && Bounded(s) && s.alive == 0 && s.total == 0
    ensures |s.queued| == |UncountedThreads(s)|
  {
    NobodyCounts(s);
    UncountedOweWake(s.asyncs);
    UncountedAre(s.asyncs);
    assert UncountedThreads(s) == set a: nat | a < |s.asyncs| && s.asyncs[a].AOweTotal?;
    assert CounterOk(s, OfTotal);
    QueuedBound(s);
  }

  /** What is queued then has not been counted yet, so its wake-up is still to come. */
  lemma ZeroMeansUncounted(s: State)
    requires TasksOk(s) && CountersOk(s) && AliveOk(s) && Bounded(s) && s.alive == 0 && s.total == 0
    ensures |s.queued| <= Announcers(s)
  {
    ZeroMeansAsMany(s);
    UncountedAre(s.asyncs);
    UncountedOweWake(s.asyncs);
    assert UncountedThreads(s) == set a: nat | a < |s.asyncs| && s.asyncs[a].AOweTotal?;
  }

  lemma QueuedBound(s: State)
    requires Shape(s)
    ensures |s.queued| <= |s.prio|
  {
    var rest := s.prio.Keys - s.queued.Keys;
    assert s.prio.Keys == s.queued.Keys + rest;
    assert |s.queued| == |s.queued.Keys| && |s.prio| == |s.prio.Keys|;
  }

  /** A VPU that is up, before and after its step, is no sleeper. */
  lemma AwakeSleep(s: State, s': State, v: nat)
    requires AliveOk(s) && SleepOk(s) && v < |s.vpus| && |s'.vpus| == |s.vpus|
    requires Weight(s.vpus[v], OfDown) == 0 || s.lock.None?
    requires !s'.vpus[v].Asleep? && !s'.vpus[v].DownIdle?
    requires forall u :: 0 <= u < |s.vpus| && s'.vpus[u].DownIdle? ==> s.vpus[u].DownIdle?
    ensures SleepOk(s') && !Resting(s')
  {
    if DownIdle in s'.vpus {
      var u :| 0 <= u < |s'.vpus| && s'.vpus[u].DownIdle?;
      assert s.vpus[u].DownIdle? && s.lock == Some(u);
      NobodyUp(s, v);
    }
  }

  lemma TakeSleep(s: State, a: Action)
    requires Inv(s) && Enabled(s, a) && (a.Take? || a.Settle?)
    ensures SleepOk(Step(s, a)) && !Resting(Step(s, a))
  {
    AwakeSleep(s, Step(s, a), a.v);
  }

  lemma TaskSleep(s: State, a: Action)
    requires Inv(s) && Enabled(s, a) && (a.MakeReady? || a.Count?)
    ensures SleepOk(Step(s, a)) && !Resting(Step(s, a))
  {
    AwakeSleep(s, Step(s, a), a.v);
  }

  lemma RunSleep(s: State, a: Action)
    requires Inv(s) && Enabled(s, a) && (a.Yield? || a.Leave? || a.SetPriority?)
    ensures SleepOk(Step(s, a)) && !Resting(Step(s, a))
  {
    AwakeSleep(s, Step(s, a), a.v);
  }

  lemma WakeSleep(s: State, a: Action)
    requires Inv(s) && Enabled(s, a) && a.Wake?
    ensures SleepOk(Step(s, a)) && !Resting(Step(s, a))
  {
    AwakeSleep(s, Step(s, a), a.v);
  }

  lemma MoveSleep(s: State, a: Action)
    requires Inv(s) && Enabled(s, a) && (a.Drowse? || a.Rise?)
    ensures SleepOk(Step(s, a)) && !Resting(Step(s, a))
  {
    AwakeSleep(s, Step(s, a), a.v);
  }

  lemma SpuriousSleep(s: State, v: nat)
    requires Inv(s) && Enabled(s, Spurious(v))
    ensures SleepOk(Step(s, Spurious(v)))
  {
    var s' := Step(s, Spurious(v));
    assert !s'.vpus[v].Asleep?;
    if DownIdle in s'.vpus {
      var u :| 0 <= u < |s'.vpus| && s'.vpus[u].DownIdle?;
      assert s.vpus[u].DownIdle?;
    }
  }

  lemma AsyncSleep(s: State, a: Action)
    requires Inv(s) && Enabled(s, a) && (a.AMakeReady? || a.ACount?)
    ensures SleepOk(Step(s, a))
  {
    SumUpdate(s.asyncs, AWeights(OfWake), a.a, Step(s, a).asyncs[a.a]);
    if a.AMakeReady? { AtAdd(s.queued, a.t, s.prio[a.t], OfTotal); }
  }

  /** With every VPU asleep, vpu_wakeup_one cannot fail to signal one. */
  lemma WakeReachesSleeper(s: State, a: Action)
    requires AliveOk(s) && |s.vpus| > 0 && Enabled(s, a) && (a.Wake? || a.AWake?) && AllAsleep(s)
    ensures a.target.Some? && Step(s, a).vpus[a.target.value].Signalled? && !AllAsleep(Step(s, a))
  {
    SumDown(s.vpus);
    assert s.vpus[0].Asleep?;
    assert Step(s, a).vpus[a.target.value].Signalled?;
  }

  /** vpu_wakeup_one signals the sleeper it picks and nobody else. */
  lemma WakeSignals(s: State, a: Action, u: nat)
    requires Enabled(s, a) && (a.Wake? || a.AWake?) && u < |s.vpus|
    ensures |Step(s, a).vpus| == |s.vpus|
    ensures Step(s, a).vpus[u].Signalled? <==> s.vpus[u].Signalled? || a.target == Some(u)
    ensures a.target == Some(u) ==> s.vpus[u].Asleep?
  {}

  lemma AWakeSleep(s: State, a: Action)
    requires Inv(s) && Enabled(s, a) && a.AWake?
    ensures SleepOk(Step(s, a)) && !Resting(Step(s, a))
  {
    var s' := Step(s, a);
    if AllAsleep(s') {
      assert forall v :: 0 <= v < |s.vpus| && s'.vpus[v].Asleep? ==> s.vpus[v].Asleep?;
      WakeReachesSleeper(s, a);
    }
  }

  lemma DecideSleep(s: State, a: Action)
    requires Inv(s) && Enabled(s, a) && (a.Check? || a.Doze?)
    ensures SleepOk(Step(s, a))
    ensures a.Check? && Resting(Step(s, a)) ==> s.alive == 0 && s.total == 0
  {
    var s' := Step(s, a);
    AliveStep(s, a);
    SumDown(s'.vpus);
    if a.Check? && s.alive == 0 && s.total == 0 { ZeroMeansUncounted(s); }
    if DownIdle in s'.vpus {
      var u :| 0 <= u < |s'.vpus| && s'.vpus[u].DownIdle?;
      assert s'.lock == Some(u) && s.lock == Some(a.v);
    }
  }

  lemma StepKeepsInv(s: State, a: Action)
    requires Inv(s) && Enabled(s, a)
    ensures Inv(Step(s, a))
  {
    TasksStep(s, a);
    CountersStep(s, a);
    AliveStep(s, a);
    if a.Check? || a.Doze? { DecideSleep(s, a); }
    else if a.AMakeReady? || a.ACount? { AsyncSleep(s, a); }
    else if a.AWake? { AWakeSleep(s, a); }
    else if a.Spurious? { SpuriousSleep(s, a.v); }
    else if a.Drowse? || a.Rise? { MoveSleep(s, a); }
    else if a.Yield? || a.Leave? || a.SetPriority? { RunSleep(s, a); }
    else if a.Wake? { WakeSleep(s, a); }
    else if a.Take? || a.Settle? { TakeSleep(s, a); }
    else { TaskSleep(s, a); }
    KeysKept(s, a);
  }

  lemma KeysKept(s: State, a: Action)
    requires TasksOk(s) && Enabled(s, a)
    ensures |Step(s, a).prio| == |s.prio| && |Step(s, a).vpus| == |s.vpus| && |Step(s, a).asyncs| == |s.asyncs|
  {
    if a.SetPriority? { PriorityKept(s, a.v, a.p); }
  }

  lemma PriorityKept(s: State, v: nat, p: nat)
    requires Enabled(s, SetPriority(v, p))
    ensures |Step(s, SetPriority(v, p)).prio| == |s.prio|
  {
    var prio := s.prio[s.vpus[v].t := p];
    assert prio.Keys == s.prio.Keys && |prio| == |prio.Keys|;
  }

  /* ---- Whole runs ---- */

  ghost predicate Moves(trace: seq<State>, actions: seq<Action>, i: nat)
    requires i < |actions| < |trace|
  {
    Enabled(trace[i], actions[i]) && trace[i + 1] == Step(trace[i], actions[i])
  }

  ghost predicate IsRun(trace: seq<State>, actions: seq<Action>) {
    |trace| == |actions| + 1 && Init(trace[0]) && |trace[0].vpus| > 0 &&
    forall i :: 0 <= i < |actions| ==> Moves(trace, actions, i)
  }

  lemma {:induction false} InitSums(vpus: seq<Vpu>, asyncs: seq<Async>, q: Tally)
    requires forall v :: 0 <= v < |vpus| ==> vpus[v].Search?
    requires forall a :: 0 <= a < |asyncs| ==> asyncs[a].Quiet?
    ensures VSum(vpus, q) == 0 && ASum(asyncs, q) == 0
    decreases |asyncs|
  {
    SumZero(vpus, Weights(q));
    if asyncs != [] { InitSums(vpus, asyncs[..|asyncs| - 1], q); }
  }

  lemma InitOk(s: State)
    requires Init(s) && |s.vpus| > 0
    ensures Inv(s)
  {
    InitSums(s.vpus, s.asyncs, OfDown);
    forall q | IsCounter(q) ensures CounterOk(s, q) {
      InitSums(s.vpus, s.asyncs, q);
      assert q.OfReady? ==> At(s.queued, q.p) == {};
    }
    assert s.vpus[0].Search?;
  }

  lemma {:induction false} RunsAreSafe(trace: seq<State>, actions: seq<Action>, i: nat)
    requires IsRun(trace, actions) && i < |trace|
    ensures Inv(trace[i])
  {
    if i == 0 {
      InitOk(trace[0]);
    } else {
      RunsAreSafe(trace, actions, i - 1);
      assert Moves(trace, actions, i - 1);
      StepKeepsInv(trace[i - 1], actions[i - 1]);
    }
  }

  lemma {:induction false} OwingThread(asyncs: seq<Async>) returns (a: nat)
    requires ASum(asyncs, OfWake) > 0
    ensures a < |asyncs| && !asyncs[a].Quiet?
  {
    var n := |asyncs| - 1;
    if asyncs[n].Quiet? {
      a := OwingThread(asyncs[..n]);
    } else {
      a := n;
    }
  }

  /** Whenever all VPUs sleep unsignalled, there are at least as many threads that still owe a
      vpu_wakeup_one as there are queued tasks; in particular a ready task is never slept over with
      nobody left to announce it. */
  lemma NoLostWakeup(trace: seq<State>, actions: seq<Action>, i: nat)
    requires IsRun(trace, actions) && i < |trace| && AllAsleep(trace[i])
    ensures |trace[i].queued| <= Announcers(trace[i])
    ensures |trace[i].queued| > 0 ==> exists a: nat :: a < |trace[i].asyncs| && !trace[i].asyncs[a].Quiet?
  {
    RunsAreSafe(trace, actions, i);
    if |trace[i].queued| > 0 {
      var a := OwingThread(trace[i].asyncs);
    }
  }

  /** The ready counters equal, modulo 2^32, what is queued plus what is taken and not yet
      discounted minus what is queued and not yet counted. */
  lemma CountersExact(trace: seq<State>, actions: seq<Action>, i: nat, p: nat)
    requires IsRun(trace, actions) && i < |trace| && p < PRIOS
    ensures var s := trace[i];
            && Shape(s)
            && s.total == (|s.queued| + VSum(s.vpus, OfTotal) + ASum(s.asyncs, OfTotal)) % WORD
            && s.ready[p] == (|At(s.queued, p)| + VSum(s.vpus, OfReady(p)) + ASum(s.asyncs, OfReady(p))) % WORD
  {
    RunsAreSafe(trace, actions, i);
    assert CounterOk(trace[i], OfTotal) && CounterOk(trace[i], OfReady(p));
  }

  /** A queued task carries the priority of its queue and is in nobody's hands, and a candidate
      taken from queue p has priority p: the assertion in core_sched holds. */
  lemma PrioritiesAgree(trace: seq<State>, actions: seq<Action>, i: nat, t: Task)
    requires IsRun(trace, actions) && i < |trace|
    ensures var s := trace[i];
            && (t in s.queued ==> t in s.prio && s.queued[t] == s.prio[t])
            && (forall v :: 0 <= v < |s.vpus| && Holds(s.vpus[v], t) ==> t !in s.queued)
            && (forall v :: 0 <= v < |s.vpus| && (s.vpus[v].Took? || s.vpus[v].Settling?) ==>
                 s.vpus[v].t in s.prio && s.prio[s.vpus[v].t] == s.vpus[v].p)
  {
    RunsAreSafe(trace, actions, i);
    assert forall v :: 0 <= v < |trace[i].vpus| ==> VpuOk(trace[i], trace[i].vpus[v]);
  }

  /* ---- Every task is somewhere ---- */

  /** VPU v runs t, or runs a call on its behalf. */
  predicate RunsOn(s: State, v: nat, t: Task) {
    v < |s.vpus| && Holds(s.vpus[v], t) && !s.vpus[v].Took? && !s.vpus[v].Settling?
  }

  /** VPU v has taken t from its queue and is about to run it. */
  predicate Picked(s: State, v: nat, t: Task) {
    v < |s.vpus| && (s.vpus[v].Took? || s.vpus[v].Settling?) && s.vpus[v].t == t
  }

  ghost predicate Somewhere(s: State, t: Task)
    requires t in s.status
  {
    match s.status[t]
    case Running => exists v: nat :: RunsOn(s, v, t)
    case Ready => t in s.queued || exists v: nat :: Picked(s, v, t)
    case _ => true
  }

  /** A step of VPU v that leaves status and queue of t alone, and does not let go of it. */
  lemma StillSomewhere(s: State, s': State, v: nat, t: Task)
    requires t in s.status && Somewhere(s, t) && v < |s.vpus| && |s'.vpus| == |s.vpus|
    requires t in s'.status && s'.status[t] == s.status[t] && (t in s.queued ==> t in s'.queued)
    requires forall u: nat :: u != v && RunsOn(s, u, t) ==> RunsOn(s', u, t)
    requires forall u: nat :: u != v && Picked(s, u, t) ==> Picked(s', u, t)
    requires (RunsOn(s, v, t) ==> RunsOn(s', v, t)) && (Picked(s, v, t) ==> Picked(s', v, t))
    ensures Somewhere(s', t)
  {
    if u: nat :| RunsOn(s, u, t) { assert RunsOn(s', u, t); }
    if u: nat :| Picked(s, u, t) { assert Picked(s', u, t); }
  }

  lemma TakeSomewhere(s: State, a: Action, t: Task)
    requires TasksOk(s) && Enabled(s, a) && (a.Take? || a.Settle?) && t in s.status && Somewhere(s, t)
    ensures t in Step(s, a).status && Somewhere(Step(s, a), t)
  {
    var (s', x) := (Step(s, a), s.vpus[a.v]);
    assert VpuOk(s, x);
    if a.Take? && t == a.t { assert Picked(s', a.v, t); }
    else if a.Settle? && x.Settling? && x.t == t { assert RunsOn(s', a.v, t); }
    else { StillSomewhere(s, s', a.v, t); }
  }

  lemma RunSomewhere(s: State, a: Action, t: Task)
    requires TasksOk(s) && Enabled(s, a) && (a.Yield? || a.Leave? || a.SetPriority?) && t in s.status && Somewhere(s, t)
    ensures t in Step(s, a).status && Somewhere(Step(s, a), t)
  {
    assert VpuOk(s, s.vpus[a.v]);
    if !(Holds(s.vpus[a.v], t) && !a.SetPriority?) { StillSomewhere(s, Step(s, a), a.v, t); }
  }

  lemma ReadySomewhere(s: State, a: Action, t: Task)
    requires TasksOk(s) && Enabled(s, a) && a.MakeReady? && t in s.status && Somewhere(s, t)
    ensures t in Step(s, a).status && Somewhere(Step(s, a), t)
  {
    assert VpuOk(s, s.vpus[a.v]);
    if t != a.t { StillSomewhere(s, Step(s, a), a.v, t); }
  }

  lemma CountSomewhere(s: State, a: Action, t: Task)
    requires TasksOk(s) && Enabled(s, a) && a.Count? && t in s.status && Somewhere(s, t)
    ensures t in Step(s, a).status && Somewhere(Step(s, a), t)
  {
    StillSomewhere(s, Step(s, a), a.v, t);
  }

  lemma WakeSomewhere(s: State, a: Action, t: Task)
    requires TasksOk(s) && Enabled(s, a) && a.Wake? && t in s.status && Somewhere(s, t)
    ensures t in Step(s, a).status && Somewhere(Step(s, a), t)
  {
    StillSomewhere(s, Step(s, a), a.v, t);
  }

  lemma SleepSomewhere(s: State, a: Action, t: Task)
    requires TasksOk(s) && Enabled(s, a) && t in s.status && Somewhere(s, t)
    requires a.Drowse? || a.Check? || a.Doze? || a.Spurious? || a.Rise?
    ensures t in Step(s, a).status && Somewhere(Step(s, a), t)
  {
    StillSomewhere(s, Step(s, a), a.v, t);
  }

  lemma AsyncSomewhere(s: State, a: Action, t: Task)
    requires TasksOk(s) && Enabled(s, a) && (a.AMakeReady? || a.ACount? || a.AWake?) && t in s.status && Somewhere(s, t)
    ensures t in Step(s, a).status && Somewhere(Step(s, a), t)
  {
    if !(a.AMakeReady? && t == a.t) {
      var s' := Step(s, a);
      if u: nat :| RunsOn(s, u, t) { assert RunsOn(s', u, t); }
      if u: nat :| Picked(s, u, t) { assert Picked(s', u, t); }
    }
  }

  lemma StepSomewhere(s: State, a: Action, t: Task)
    requires TasksOk(s) && Enabled(s, a) && t in s.status && Somewhere(s, t)
    ensures t in Step(s, a).status && Somewhere(Step(s, a), t)
  {
    if a.Take? || a.Settle? { TakeSomewhere(s, a, t); }
    else if a.Yield? || a.Leave? || a.SetPriority? { RunSomewhere(s, a, t); }
    else if a.MakeReady? { ReadySomewhere(s, a, t); }
    else if a.Count? { CountSomewhere(s, a, t); }
    else if a.Wake? { WakeSomewhere(s, a, t); }
    else if a.AMakeReady? || a.ACount? || a.AWake? { AsyncSomewhere(s, a, t); }
    else { SleepSomewhere(s, a, t); }
  }

  lemma {:induction false} RunsKeepTasks(trace: seq<State>, actions: seq<Action>, i: nat, t: Task)
    requires IsRun(trace, actions) && i < |trace| && t in trace[0].status
    ensures t in trace[i].status && Somewhere(trace[i], t)
  {
    if i > 0 {
      RunsKeepTasks(trace, actions, i - 1, t);
      RunsAreSafe(trace, actions, i - 1);
      assert Moves(trace, actions, i - 1);
      StepSomewhere(trace[i - 1], actions[i - 1], t);
    }
  }

  /** In every state of a run: a RUNNING task is on exactly one VPU, a READY task is queued or picked by
      exactly one VPU and not both, and a task that waits or has exited is on no VPU and in no queue. */
  lemma NoTaskIsLost(trace: seq<State>, actions: seq<Action>, i: nat, t: Task)
    requires IsRun(trace, actions) && i < |trace| && t in trace[0].status
    ensures t in trace[i].status
    ensures var s := trace[i];
            && (s.status[t].Running? ==> t !in s.queued && exists v: nat :: RunsOn(s, v, t))
            && (s.status[t].Ready? ==> t in s.queued || exists v: nat :: Picked(s, v, t))
            && (t in s.queued ==> s.status[t].Ready? && forall v :: 0 <= v < |s.vpus| ==> !Holds(s.vpus[v], t))
            && (s.status[t].Waiting? || s.status[t].Exited? ==>
                 t !in s.queued && forall v :: 0 <= v < |s.vpus| ==> !Holds(s.vpus[v], t))
            && (forall u, v :: 0 <= u < |s.vpus| && 0 <= v < |s.vpus| && Holds(s.vpus[u], t) && Holds(s.vpus[v], t) ==> u == v)
  {
    RunsKeepTasks(trace, actions, i, t);
    RunsAreSafe(trace, actions, i);
    var s := trace[i];
    assert forall v :: 0 <= v < |s.vpus| ==> VpuOk(s, s.vpus[v]);
  }

  /** A VPU that found nothing goes to sleep if another one is up; the last one does so exactly if nothing
      is counted ready and an asynchronous request is out; otherwise it looks again, and is up meanwhile. */
  lemma SleepsIff(s: State, v: nat, iowait: bool)
    requires AliveOk(s) && |s.vpus| > 0 && Enabled(s, Drowse(v))
    ensures var s1 := Step(s, Drowse(v));
            var s2 := Step(s1, Check(v));
            var s3 := if s2.vpus[v].DownIdle? then Step(s2, Doze(v, iowait)) else s2;
            && (s3.vpus[v].Asleep? <==> s.alive > 1 || (s.total == 0 && iowait))
            && (s3.vpus[v].Asleep? || s3.vpus[v].Search?)
            && s3.lock.None? && s3.alive == (if s3.vpus[v].Asleep? then s.alive - 1 else s.alive)
  {}

  /* ---- Every vpu_ready ends with a wakeup or a yield ---- */

  predicate Owing(x: Vpu) { x.OweTotal? || x.OweReady? || x.OweWake? }

  predicate ReadyBegins(a: Action, v: nat) { a.MakeReady? && a.v == v }

  predicate ReadyEnds(s: State, a: Action, v: nat)
    requires v < |s.vpus|
  {
    (a.Wake? && a.v == v) || (a.Yield? && a.v == v && s.vpus[v].OweWake?)
  }

  predicate Balances(s: State, a: Action, v: nat)
    requires Enabled(s, a) && v < |s.vpus|
  {
    && |Step(s, a).vpus| == |s.vpus|
    && One(Owing(Step(s, a).vpus[v])) + One(ReadyEnds(s, a, v)) == One(Owing(s.vpus[v])) + One(ReadyBegins(a, v))
  }

  lemma ReadyCalls(s: State, a: Action, v: nat)
    requires Enabled(s, a) && v < |s.vpus| && (a.MakeReady? || a.Count?)
    ensures Balances(s, a, v)
  {}

  lemma ReadyReturns(s: State, a: Action, v: nat)
    requires Enabled(s, a) && v < |s.vpus| && (a.Wake? || a.AWake? || a.Yield?)
    ensures Balances(s, a, v)
  {}

  lemma ReadySleeps(s: State, a: Action, v: nat)
    requires Enabled(s, a) && v < |s.vpus| && (a.Drowse? || a.Check? || a.Doze? || a.Spurious? || a.Rise?)
    ensures Balances(s, a, v)
  {}

  lemma ReadyRests(s: State, a: Action, v: nat)
    requires Enabled(s, a) && v < |s.vpus| && (a.Take? || a.Settle? || a.Leave? || a.SetPriority? || a.AMakeReady? || a.ACount?)
    ensures Balances(s, a, v)
  {}

  lemma ReadyStep(s: State, a: Action, v: nat)
    requires Enabled(s, a) && v < |s.vpus|
    ensures Balances(s, a, v)
  {
    if a.MakeReady? || a.Count? { ReadyCalls(s, a, v); }
    else if a.Wake? || a.AWake? || a.Yield? { ReadyReturns(s, a, v); }
    else if a.Drowse? || a.Check? || a.Doze? || a.Spurious? || a.Rise? { ReadySleeps(s, a, v); }
    else { ReadyRests(s, a, v); }
  }

  /** How many of the first n actions of a run begin, or end, a call of vpu_ready on VPU v. */
  ghost function Begun(actions: seq<Action>, v: nat, n: nat): nat
    requires n <= |actions|
  {
    if n == 0 then 0 else Begun(actions, v, n - 1) + One(ReadyBegins(actions[n - 1], v))
  }

  ghost function Ended(trace: seq<State>, actions: seq<Action>, v: nat, n: nat): nat
    requires n <= |actions| < |trace|
  {
    if n == 0 then 0
    else Ended(trace, actions, v, n - 1) + One(v < |trace[n - 1].vpus| && ReadyEnds(trace[n - 1], actions[n - 1], v))
  }

  /** Over every run, each vpu_ready on a VPU is over after exactly one vpu_wakeup_one or one yield. */
  lemma {:induction false} ReadiesWake(trace: seq<State>, actions: seq<Action>, v: nat, n: nat)
    requires IsRun(trace, actions) && n < |trace| && v < |trace[0].vpus|
    ensures |trace[n].vpus| == |trace[0].vpus|
    ensures Begun(actions, v, n) == Ended(trace, actions, v, n) + One(Owing(trace[n].vpus[v]))
  {
    if n > 0 {
      ReadiesWake(trace, actions, v, n - 1);
      assert Moves(trace, actions, n - 1);
      ReadyStep(trace[n - 1], actions[n - 1], v);
    }
  }

  /** What a coroutine does to itself: leaving the VPU it waits or is gone for good; a new priority is the one
      it is queued with next; yielding, it is ready and queued. */
  lemma OwnActs(s: State, a: Action)
    requires TasksOk(s) && Enabled(s, a) && (a.Leave? || a.SetPriority? || a.Yield?)
    ensures var (s', t) := (Step(s, a), Current(s.vpus[a.v]).value);
            && (a.Leave? ==> s'.status[t] == (if a.exit then Exited else Waiting) && s'.vpus[a.v].Search? && t !in s'.queued)
            && (a.SetPriority? ==> s'.prio[t] == a.p && RunsOn(s', a.v, t))
            && (a.Yield? ==> s'.status[t].Ready? && t in s'.queued && s'.queued[t] == s.prio[t])
  {
    assert VpuOk(s, s.vpus[a.v]);
  }

  /** A task that has exited never comes back. */
  lemma {:induction false} ExitIsFinal(trace: seq<State>, actions: seq<Action>, i: nat, j: nat, t: Task)
    requires IsRun(trace, actions) && i <= j < |trace| && t in trace[0].status
    requires t in trace[i].status && trace[i].status[t].Exited?
    ensures t in trace[j].status && trace[j].status[t].Exited?
    decreases j - i
  {
    if i < j {
      ExitIsFinal(trace, actions, i, j - 1, t);
      NoTaskIsLost(trace, actions, j - 1, t);
      RunsAreSafe(trace, actions, j - 1);
      assert Moves(trace, actions, j - 1);
      ExitedStays(trace[j - 1], actions[j - 1], t);
    }
  }

  lemma OthersSettle(s: State, a: Action, t: Task)
    requires Enabled(s, a) && (a.Settle? || a.Yield? || a.Leave?) && t in s.status && !Holds(s.vpus[a.v], t)
    ensures t in Step(s, a).status && Step(s, a).status[t] == s.status[t]
  {}

  lemma ExitedStays(s: State, a: Action, t: Task)
    requires TasksOk(s) && Enabled(s, a) && t in s.status && s.status[t].Exited?
    requires forall v :: 0 <= v < |s.vpus| ==> !Holds(s.vpus[v], t)
    ensures t in Step(s, a).status && Step(s, a).status[t].Exited?
  {
    if a.Settle? || a.Yield? || a.Leave? { OthersSettle(s, a, t); }
  }

  /* ---- When every queued task has an announcer of its own ---- */

  /** Thread a put t where it is now and has still to call vpu_wakeup_one for it. */
  predicate Announces(s: State, a: nat, t: Task) {
    a < |s.asyncs| && !s.asyncs[a].Quiet? && s.asyncs[a].t == t && t in s.queued && t in s.from && s.from[t] == a
  }

  /** ...although the task has already been taken from its queue. */
  predicate TakenUncounted(s: State, a: nat) {
    Uncounted(s, a) && !Announces(s, a, s.asyncs[a].t)
  }

  /** The threads that announce a task: those that have yet to count it and those that only have to
      call vpu_wakeup_one. */
  function Announcing(s: State): set<nat> {
    set a: nat | a < |s.asyncs| && !s.asyncs[a].Quiet? && Announces(s, a, s.asyncs[a].t)
  }

  function CountedAnnouncing(s: State): set<nat> {
    set a | a in Announcing(s) && !Uncounted(s, a)
  }

  function TakenThreads(s: State): set<nat> {
    set a: nat | a < |s.asyncs| && TakenUncounted(s, a)
  }

  ghost predicate OwnAnnouncers(s: State) {
    forall t :: t in s.queued ==> exists a: nat :: Announces(s, a, t)
  }

  /** The tasks that the threads of g announce. */
  function TasksOf(s: State, g: set<nat>): set<Task> {
    set a | a in g && a < |s.asyncs| && !s.asyncs[a].Quiet? :: s.asyncs[a].t
  }

  /** Different threads announce different tasks. */
  lemma {:induction false} TasksOfAreAsMany(s: State, g: set<nat>)
    requires g <= Announcing(s)
    ensures |TasksOf(s, g)| == |g|
    decreases |g|
  {
    if g != {} {
      var a :| a in g;
      TasksOfAreAsMany(s, g - {a});
      assert TasksOf(s, g) == TasksOf(s, g - {a}) + {s.asyncs[a].t};
    }
  }

  lemma SubsetBySize<T>(small: set<T>, large: set<T>)
    requires small <= large
    ensures |small| <= |large| && (small == large <==> |small| == |large|)
  {
    assert large == small + (large - small);
  }

  lemma DisjointSizes<T>(whole: set<T>, a: set<T>, b: set<T>)
    requires whole == a + b && a !! b
    ensures |whole| == |a| + |b|
  {}

  lemma AnnouncedTask(s: State, t: Task)
    ensures t in TasksOf(s, Announcing(s)) <==> exists a: nat :: Announces(s, a, t)
  {
    if a: nat :| Announces(s, a, t) { assert a in Announcing(s); }
    if t in TasksOf(s, Announcing(s)) {
      var a :| a in Announcing(s) && s.asyncs[a].t == t;
      assert Announces(s, a, t);
    }
  }

  /** Every queued task has an announcer exactly if the announced tasks are the queued ones. */
  lemma OwnMeansAll(s: State)
    ensures TasksOf(s, Announcing(s)) <= s.queued.Keys
    ensures OwnAnnouncers(s) <==> TasksOf(s, Announcing(s)) == s.queued.Keys
  {
    var tasks := TasksOf(s, Announcing(s));
    forall t ensures t in tasks <==> exists a: nat :: Announces(s, a, t) { AnnouncedTask(s, t); }
    assert tasks <= s.queued.Keys;
    if OwnAnnouncers(s) {
      forall t | t in s.queued ensures t in tasks { AnnouncedTask(s, t); }
    } else {
      var t :| t in s.queued && !exists a: nat :: Announces(s, a, t);
      AnnouncedTask(s, t);
    }
  }

  /** In any state that is so exactly if there are as many announcers as tasks. */
  lemma OwnAnnouncersByNumber(s: State)
    ensures |Announcing(s)| <= |s.queued| && (OwnAnnouncers(s) <==> |Announcing(s)| == |s.queued|)
  {
    TasksOfAreAsMany(s, Announcing(s));
    OwnMeansAll(s);
    SubsetBySize(TasksOf(s, Announcing(s)), s.queued.Keys);
    assert |s.queued| == |s.queued.Keys|;
  }

  /** For each thread that lost its task before counting it, another has counted its own and is still to
      announce it. */
  predicate Balanced(s: State) {
    |CountedAnnouncing(s)| == |TakenThreads(s)|
  }

  /** Every thread that has yet to count either announces its task or has lost it. */
  lemma AnnouncersByKind(s: State)
    ensures |Announcing(s)| + |TakenThreads(s)| == |UncountedThreads(s)| + |CountedAnnouncing(s)|
  {
    var kept := UncountedThreads(s) - TakenThreads(s);
    DisjointSizes(UncountedThreads(s), kept, TakenThreads(s));
    KeptAnnounce(s);
    DisjointSizes(Announcing(s), kept, CountedAnnouncing(s));
  }

  lemma KeptAnnounce(s: State)
    ensures TakenThreads(s) <= UncountedThreads(s)
    ensures Announcing(s) == (UncountedThreads(s) - TakenThreads(s)) + CountedAnnouncing(s)
  {}

  /** When the last VPU up reads total_ready == 0, every queued task has an announcer of its own if and
      only if that balance holds. */
  lemma OwnAnnouncerIff(s: State)
    requires TasksOk(s) && CountersOk(s) && AliveOk(s) && Bounded(s) && s.alive == 0 && s.total == 0
    ensures OwnAnnouncers(s) <==> Balanced(s)
  {
    ZeroMeansAsMany(s);
    OwnAnnouncersByNumber(s);
    AnnouncersByKind(s);
  }

  /** If no thread lost its task, the balance holds. */
  lemma NoneTakenIsBalanced(s: State)
    requires TasksOk(s) && CountersOk(s) && AliveOk(s) && Bounded(s) && s.alive == 0 && s.total == 0
    requires forall a: nat :: !TakenUncounted(s, a)
    ensures Balanced(s)
  {
    ZeroMeansAsMany(s);
    OwnAnnouncersByNumber(s);
    AnnouncersByKind(s);
    assert TakenThreads(s) == {};
  }

  /** Rest begins with the last VPU's check, and only other threads act during it. */
  lemma RestingStep(s: State, a: Action)
    requires Inv(s) && Enabled(s, a) && Resting(Step(s, a))
    ensures (a.Check? && s.alive == 0 && s.total == 0) ||
            (Resting(s) && (a.Doze? || a.Spurious? || a.AMakeReady? || a.ACount?))
  {
    if a.Check? { DecideSleep(s, a); }
    else if a.AWake? { AWakeSleep(s, a); }
    else if a.Drowse? || a.Rise? { MoveSleep(s, a); }
    else if a.Spurious? { SpuriousRests(s, a.v); }
    else if a.Yield? || a.Leave? || a.SetPriority? { RunSleep(s, a); }
    else if a.Wake? { WakeSleep(s, a); }
    else if a.Take? || a.Settle? { TakeSleep(s, a); }
    else if !a.Doze? && !a.AMakeReady? && !a.ACount? { TaskSleep(s, a); }
  }

  lemma SpuriousRests(s: State, v: nat)
    requires Inv(s) && Enabled(s, Spurious(v)) && Resting(Step(s, Spurious(v)))
    ensures Resting(s)
  {
    var s' := Step(s, Spurious(v));
    assert !s'.vpus[v].Asleep?;
    var u :| 0 <= u < |s'.vpus| && s'.vpus[u].DownIdle?;
    assert s.vpus[u].DownIdle?;
  }

  /** No VPU takes a task before the thread that queued it has counted it. */
  ghost predicate Counted(s: State, a: Action) {
    a.Take? ==> forall x: nat :: Uncounted(s, x) ==> !Announces(s, x, a.t)
  }

  lemma UncountedStep(s: State, a: Action)
    requires TasksOk(s) && Enabled(s, a) && Counted(s, a) && forall x: nat :: !TakenUncounted(s, x)
    ensures forall x: nat :: !TakenUncounted(Step(s, a), x)
  {
    var s' := Step(s, a);
    forall x: nat ensures !TakenUncounted(s', x) {
      if Uncounted(s', x) && Uncounted(s, x) {
        assert !TakenUncounted(s, x) && Announces(s, x, s.asyncs[x].t);
        UncountedStays(s, a, x);
      }
    }
  }

  lemma UncountedStays(s: State, a: Action, x: nat)
    requires TasksOk(s) && Enabled(s, a) && Counted(s, a)
    requires Uncounted(s, x) && Announces(s, x, s.asyncs[x].t) && Uncounted(Step(s, a), x)
    ensures Announces(Step(s, a), x, Step(s, a).asyncs[x].t)
  {
    if a.Yield? { assert VpuOk(s, s.vpus[a.v]); }
  }

  /** The same threads announce the same tasks. */
  lemma SameAnnouncers(s: State, s': State)
    requires s'.queued == s.queued && forall x: nat, t :: Announces(s', x, t) <==> Announces(s, x, t)
    ensures OwnAnnouncers(s') <==> OwnAnnouncers(s)
  {
    forall t | t in s.queued ensures (exists x: nat :: Announces(s, x, t)) <==> exists x: nat :: Announces(s', x, t) {
      if x: nat :| Announces(s, x, t) { assert Announces(s', x, t); }
    }
  }

  lemma NewAnnouncer(s: State, x: nat, t: Task)
    requires TasksOk(s) && Enabled(s, AMakeReady(x, t))
    ensures OwnAnnouncers(Step(s, AMakeReady(x, t))) <==> OwnAnnouncers(s)
  {
    var s' := Step(s, AMakeReady(x, t));
    assert t !in s.queued && s'.queued.Keys == s.queued.Keys + {t} && Announces(s', x, t);
    assert forall y: nat, u :: u != t ==> (Announces(s', y, u) <==> Announces(s, y, u));
    forall u | u in s.queued ensures (exists y: nat :: Announces(s, y, u)) <==> exists y: nat :: Announces(s', y, u) {
      if y: nat :| Announces(s, y, u) { assert Announces(s', y, u); }
      if y: nat :| Announces(s', y, u) { assert Announces(s, y, u); }
    }
  }

  /** What happens while all VPUs rest neither takes an announcer away nor gives a queued task a new one. */
  lemma AnnouncersStay(s: State, a: Action)
    requires TasksOk(s) && Enabled(s, a) && (a.Doze? || a.Spurious? || a.AMakeReady? || a.ACount?)
    ensures OwnAnnouncers(Step(s, a)) <==> OwnAnnouncers(s)
  {
    if a.AMakeReady? { NewAnnouncer(s, a.a, a.t); } else { SameAnnouncers(s, Step(s, a)); }
  }

  lemma CheckKeepsOwn(s: State, a: Action)
    requires Enabled(s, a) && a.Check?
    ensures OwnAnnouncers(Step(s, a)) <==> OwnAnnouncers(s)
  {
    SameAnnouncers(s, Step(s, a));
  }

  lemma StartIsAwake(s: State)
    requires Init(s) && |s.vpus| > 0
    ensures !Resting(s)
  {
    assert s.vpus[0].Search?;
  }

  /** A step into rest: either the last VPU's check begins it, or it goes on; announcers are as before. */
  lemma RestStep(s: State, a: Action, s': State)
    requires Inv(s) && Enabled(s, a) && s' == Step(s, a) && Resting(s')
    ensures OwnAnnouncers(s') <==> OwnAnnouncers(s)
    ensures if a.Check? then s.alive == 0 && s.total == 0 else Resting(s)
  {
    RestingStep(s, a);
    if a.Check? { CheckKeepsOwn(s, a); } else { AnnouncersStay(s, a); }
  }

  /** Whenever all VPUs of a run sleep, or the last one is about to, their rest began with a check of the
      last VPU at some step j, and every queued task has an announcer of its own if and only if the
      balance held at that check. */
  lemma {:induction false} SleepersExact(trace: seq<State>, actions: seq<Action>, i: nat) returns (j: nat)
    requires IsRun(trace, actions) && i < |trace| && Resting(trace[i])
    ensures j < i && actions[j].Check? && trace[j].alive == 0 && trace[j].total == 0
    ensures forall n :: j < n <= i ==> Resting(trace[n])
    ensures OwnAnnouncers(trace[i]) <==> Balanced(trace[j])
  {
    if i == 0 {
      StartIsAwake(trace[0]);
      assert false;
    }
    RunsAreSafe(trace, actions, i - 1);
    assert Moves(trace, actions, i - 1);
    RestStep(trace[i - 1], actions[i - 1], trace[i]);
    if actions[i - 1].Check? {
      OwnAnnouncerIff(trace[i - 1]);
      j := i - 1;
    } else {
      j := SleepersExact(trace, actions, i - 1);
    }
  }

  lemma {:induction false} NeverTaken(trace: seq<State>, actions: seq<Action>, i: nat)
    requires IsRun(trace, actions) && i < |trace| && forall j :: 0 <= j < i ==> Counted(trace[j], actions[j])
    ensures forall x: nat :: !TakenUncounted(trace[i], x)
  {
    if i > 0 {
      RunsAreSafe(trace, actions, i - 1);
      NeverTaken(trace, actions, i - 1);
      assert Counted(trace[i - 1], actions[i - 1]) && Moves(trace, actions, i - 1);
      UncountedStep(trace[i - 1], actions[i - 1]);
    }
  }

  /** If in a run no task is taken before its announcer has counted it, then whenever all VPUs sleep
      every queued task has an announcer of its own. */
  lemma CountedTasksKeepAnnouncers(trace: seq<State>, actions: seq<Action>, i: nat)
    requires IsRun(trace, actions) && i < |trace| && forall j :: 0 <= j < i ==> Counted(trace[j], actions[j])
    ensures forall x: nat :: !TakenUncounted(trace[i], x)
    ensures Resting(trace[i]) ==> OwnAnnouncers(trace[i])
  {
    NeverTaken(trace, actions, i);
    if Resting(trace[i]) {
      var j := SleepersExact(trace, actions, i);
      RunsAreSafe(trace, actions, j);
      NeverTaken(trace, actions, j);
      NoneTakenIsBalanced(trace[j]);
    }
  }

  /* ---- The matching is by number, not by task ---- */

  /** One VPU, two non-VPU threads, tasks 0 and 1 of priority 2. */
  function Small(queued: map<Task, nat>, from: map<Task, nat>, s0: Status, s1: Status, count: nat, total: nat,
                 lock: Option<nat>, vpu: Vpu, a0: Async, a1: Async): State
  {
    State(queued, from, map[0 := 2, 1 := 2], map[0 := s0, 1 := s1], [0, 0, count, 0], total,
          if lock.Some? || vpu.Asleep? then 0 else 1, lock, [vpu], [a0, a1])
  }

  function LateAction(k: nat): Action {
    if k == 0 then AMakeReady(1, 1) else if k == 1 then AMakeReady(0, 0)
    else if k <= 3 then ACount(0) else if k == 4 then AWake(0, None)
    else if k == 5 then Take(0, 1) else if k <= 7 then Settle(0)
    else if k == 8 then Leave(0, false) else if k == 9 then Drowse(0)
    else if k == 10 then Check(0) else Doze(0, true)
  }

  function LateState(k: nat): State {
    var (one, both, from) := (map[0 := 2], map[0 := 2, 1 := 2], map[0 := 0, 1 := 1]);
    if k == 0 then Small(map[], map[], Waiting, Waiting, 0, 0, None, Search, Quiet, Quiet)
    else if k == 1 then Small(map[1 := 2], map[1 := 1], Waiting, Ready, 0, 0, None, Search, Quiet, AOweTotal(1, 2))
    else if k == 2 then Small(both, from, Ready, Ready, 0, 0, None, Search, AOweTotal(0, 2), AOweTotal(1, 2))
    else if k == 3 then Small(both, from, Ready, Ready, 0, 1, None, Search, AOweReady(0, 2), AOweTotal(1, 2))
    else if k == 4 then Small(both, from, Ready, Ready, 1, 1, None, Search, AOweWake(0), AOweTotal(1, 2))
    else if k == 5 then Small(both, from, Ready, Ready, 1, 1, None, Search, Quiet, AOweTotal(1, 2))
    else if k == 6 then Small(one, from, Ready, Ready, 1, 1, None, Took(1, 2), Quiet, AOweTotal(1, 2))
    else if k == 7 then Small(one, from, Ready, Ready, 1, 0, None, Settling(1, 2), Quiet, AOweTotal(1, 2))
    else if k == 8 then Small(one, from, Ready, Running, 0, 0, None, Run(1), Quiet, AOweTotal(1, 2))
    else if k == 9 then Small(one, from, Ready, Waiting, 0, 0, None, Search, Quiet, AOweTotal(1, 2))
    else if k == 10 then Small(one, from, Ready, Waiting, 0, 0, Some(0), Down, Quiet, AOweTotal(1, 2))
    else if k == 11 then Small(one, from, Ready, Waiting, 0, 0, Some(0), DownIdle, Quiet, AOweTotal(1, 2))
    else Small(one, from, Ready, Waiting, 0, 0, None, Asleep, Quiet, AOweTotal(1, 2))
  }

  ghost predicate LateStepOk(k: nat) {
    Enabled(LateState(k), LateAction(k)) && Step(LateState(k), LateAction(k)) == LateState(k + 1)
  }

  lemma LateFirst()
    ensures LateStepOk(0)
  {
    assert Step(LateState(0), LateAction(0)).status == LateState(1).status;
  }

  lemma LateSecond()
    ensures LateStepOk(1)
  {
    var s := Small(map[1 := 2], map[1 := 1], Waiting, Ready, 0, 0, None, Search, Quiet, AOweTotal(1, 2));
    SmallReady(s);
  }

  lemma SmallReady(s: State)
    requires s == Small(map[1 := 2], map[1 := 1], Waiting, Ready, 0, 0, None, Search, Quiet, AOweTotal(1, 2))
    ensures Enabled(s, AMakeReady(0, 0))
    ensures Step(s, AMakeReady(0, 0)) ==
            Small(map[0 := 2, 1 := 2], map[0 := 0, 1 := 1], Ready, Ready, 0, 0, None, Search, AOweTotal(0, 2), AOweTotal(1, 2))
  {
    var s' := Step(s, AMakeReady(0, 0));
    assert s'.queued == map[0 := 2, 1 := 2] && s'.from == map[0 := 0, 1 := 1] && s'.status == map[0 := Ready, 1 := Ready];
    assert s'.asyncs == [AOweTotal(0, 2), AOweTotal(1, 2)];
  }

  lemma LateAnnounce(k: nat)
    requires 2 <= k <= 4
    ensures LateStepOk(k)
  {}

  lemma LateTake()
    ensures LateStepOk(5)
  {
    assert Step(LateState(5), LateAction(5)).queued == LateState(6).queued;
  }

  lemma LateSettle()
    ensures LateStepOk(6)
  {}

  lemma LateRunning()
    ensures LateStepOk(7)
  {
    assert Step(LateState(7), LateAction(7)).status == LateState(8).status;
  }

  lemma LateLeave()
    ensures LateStepOk(8)
  {
    assert Step(LateState(8), LateAction(8)).status == LateState(9).status;
  }

  lemma LateDrowse()
    ensures LateStepOk(9)
  {}

  lemma LateCheck()
    ensures LateStepOk(10)
  {}

  lemma LateDoze()
    ensures LateStepOk(11)
  {}

  lemma LateStep(k: nat)
    requires k < 12
    ensures LateStepOk(k)
  {
    if k == 0 { LateFirst(); }
    else if k == 1 { LateSecond(); }
    else if k <= 4 { LateAnnounce(k); }
    else if k == 5 { LateTake(); }
    else if k == 6 { LateSettle(); }
    else if k == 7 { LateRunning(); }
    else if k == 8 { LateLeave(); }
    else if k == 11 { LateDoze(); }
    else if k == 9 { LateDrowse(); }
    else { LateCheck(); }
  }

  lemma LateRun() returns (trace: seq<State>, actions: seq<Action>)
    ensures IsRun(trace, actions) && |trace| == 13
    ensures trace[10] == LateState(10) && trace[12] == LateState(12)
    ensures forall i :: 0 <= i < 12 ==> actions[i] == LateAction(i)
  {
    LateStart();
    trace := seq(13, k requires 0 <= k < 13 => LateState(k));
    actions := seq(12, k requires 0 <= k < 12 => LateAction(k));
    forall i | 0 <= i < 12 ensures Moves(trace, actions, i) {
      LateStep(i);
      assert trace[i] == LateState(i) && actions[i] == LateAction(i) && trace[i + 1] == LateState(i + 1);
    }
  }

  /** Thread 1 queues task 1 and is delayed before counting it; thread 0 makes task 0 ready and
      announces it in full; the VPU runs task 1 and then sleeps, because total_ready reads 0.  Task 0
      is queued, its announcer has finished, and only thread 1, on behalf of task 1, will wake the
      VPU: a queued task need not have an announcer of its own. */
  lemma AnnouncerMayBeForAnotherTask() returns (trace: seq<State>, actions: seq<Action>)
    ensures IsRun(trace, actions) && |trace| == 13 && AllAsleep(trace[12]) && |trace[12].asyncs| == 2
    ensures actions[1] == AMakeReady(0, 0) && 0 in trace[12].queued && trace[12].asyncs[0].Quiet?
    ensures forall i :: 0 <= i < |actions| && i != 1 ==> actions[i] != AMakeReady(0, 0) && actions[i] != AMakeReady(1, 0)
    ensures actions[0] == AMakeReady(1, 1) && 1 !in trace[12].queued && !trace[12].asyncs[1].Quiet?
    ensures !OwnAnnouncers(trace[12]) && TakenUncounted(trace[10], 1)
  {
    trace, actions := LateRun();
    LateEnd();
  }

  lemma LateStart()
    ensures Init(LateState(0)) && |LateState(0).vpus| > 0
  {
    var first := LateState(0);
    assert |first.prio| == |first.prio.Keys| && first.prio.Keys == {0, 1};
  }

  lemma LateEnd()
    ensures var last := LateState(12);
            && AllAsleep(last) && |last.asyncs| == 2 && !OwnAnnouncers(last)
            && 0 in last.queued && 1 !in last.queued && last.asyncs[0].Quiet? && !last.asyncs[1].Quiet?
    ensures TakenUncounted(LateState(10), 1)
  {
    var last := LateState(12);
    assert 0 in last.queued && forall a: nat :: !Announces(last, a, 0);
    assert exists t :: t in last.queued && !exists a: nat :: Announces(last, a, t);
  }
}
