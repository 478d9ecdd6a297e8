/** Suspension on channels: plain operations, close, multi-channel select with its one-winner tag,
    and the asynchronous request pool (src/channel.c, include/inter/lock_chain.h, src/async.c), on
    top of the hand-off in vpu_suspend/core_wait/vpu_ready (src/vpu.c).

    One action is one lock acquisition or release, one queue removal with its CAS, one vpu_ready,
    or one section that runs with all locks held.  Whether a buffer has room or the channel is
    closed is nondeterministic here; module Channel treats the contents. */
module Select {
  import opened Common

  /** A case of a job: send to, or receive from, channel `chan`. */
  datatype Case = Case(chan: nat, send: bool)

  /** What an agent does.  `Plain` is _coroc_chan_send/_coroc_chan_recv, `Select` is
      _coroc_chan_set_select, `Submit` is coroc_async_request_submit, `Close` is coroc_chan_close and
      `Work` one round of coroc_async_thread_routine. */
  datatype Kind = Plain | Select | Submit | Close | Work

  /** `locks` is the lock chain, sorted by address. */
  datatype Job = Job(kind: Kind, cases: seq<Case>, locks: seq<nat>, block: bool)

  /** An entry of a wait queue: case `idx` of the suspended agent `co`. */
  datatype Quantum = Quantum(co: nat, idx: nat, select: bool)

  datatype Chan = Chan(lock: Option<nat>, recvQ: seq<Quantum>, sendQ: seq<Quantum>)

  datatype Status = Running | Waiting | Ready

  datatype Pc =
    | Idle
    | Acquire(job: Job, k: nat)            // about to take locks[k], holds locks[..k]
    | Try(job: Job, i: nat)                // all locks held, trying case i
    | Owe(job: Job, i: nat, target: nat)   // fetched a peer's quantum, vpu_ready comes next
    | Release(job: Job, k: nat)            // holds locks[..k]
    | Enqueued(job: Job)                   // quanta queued, all locks held, context being saved
    | Parked(job: Job)                     // core_wait has set the status to WAIT
    | Reacquire(job: Job, k: nat)
    | Finishing(job: Job)                  // resumed with all locks held again

  /** `tag` is the coroutine's qtag.  `rel` counts the locks that core_wait still has to release for
      it.  The rest is history of the current call: the cases that a peer completed while it was
      suspended, the number of vpu_ready calls, the channel reported in `*active`, and the cases that it
      completed by itself. */
  datatype Co = Co(status: Status, pc: Pc, tag: Option<nat>, rel: nat,
                   hits: seq<nat>, readies: nat, active: Option<nat>, served: seq<nat>)

  datatype State = State(chans: seq<Chan>, cos: seq<Co>)

  datatype Action =
    | Begin(i: nat, job: Job)
    | Lock(i: nat)                // the next lock of the chain, first time or after resuming
    | Pop(i: nat)                 // one round of fetch_quantum
    | Skip(i: nat)                // nobody waits on the other side and the case does not succeed
    | Buffered(i: nat)            // the case succeeds through the buffer
    | Block(i: nat)               // enqueue a quantum for every case
    | Fail(i: nat)                // nothing done, no blocking
    | MakeReady(i: nat)           // vpu_ready
    | Unlock(i: nat)
    | CoreWait(i: nat)            // status := WAIT
    | HandOff(i: nat)             // core_wait releases one lock
    | Resume(i: nat)              // a VPU runs the coroutine again
    | Finish(i: nat)              // read the tag, extract the other quanta

  function Queue(ch: Chan, send: bool): seq<Quantum> {
    if send then ch.sendQ else ch.recvQ
  }

  function SetQueue(ch: Chan, send: bool, q: seq<Quantum>): Chan {
    if send then ch.(sendQ := q) else ch.(recvQ := q)
  }

  /** The first case on channel c, or |cases|. */
  function CaseOn(cases: seq<Case>, c: nat): (i: nat)
    ensures i <= |cases|
    ensures i < |cases| ==> cases[i].chan == c
    ensures forall k :: 0 <= k < i ==> cases[k].chan != c
  {
    if cases == [] then 0 else if cases[0].chan == c then 0 else 1 + CaseOn(cases[1..], c)
  }

  predicate Ascending(locks: seq<nat>) {
    forall a, b :: 0 <= a < b < |locks| ==> locks[a] < locks[b]
  }

  /** Distinct channels per set (a close looks at both sides of its one channel), locks sorted. */
  predicate JobOk(job: Job, n: nat) {
    job.cases != [] && job.locks != [] && Ascending(job.locks) &&
    (forall k :: 0 <= k < |job.cases| ==> job.cases[k].chan < n && job.cases[k].chan in job.locks) &&
    (forall a :: 0 <= a < |job.locks| ==> job.locks[a] < n) &&
    (forall l :: l in job.locks ==> CaseOn(job.cases, l) < |job.cases|) &&
    (!job.kind.Close? ==> forall a, b :: 0 <= a < b < |job.cases| ==> job.cases[a].chan != job.cases[b].chan) &&
    (!job.kind.Select? ==> |job.locks| == 1) &&
    (job.kind.Submit? ==> job.block) &&
    ((job.kind.Close? || job.kind.Work?) ==> !job.block)
  }

  predicate InCase(s: State, i: nat) {
    i < |s.cos| && s.cos[i].pc.Try? &&
    var pc := s.cos[i].pc;
    pc.i < |pc.job.cases| && pc.job.cases[pc.i].chan < |s.chans|
  }

  /** The queue on the other side of the case being tried. */
  function PeerQueue(s: State, i: nat): seq<Quantum>
    requires InCase(s, i)
  {
    var c := s.cos[i].pc.job.cases[s.cos[i].pc.i];
    Queue(s.chans[c.chan], !c.send)
  }

  /** The lock agent i waits for. */
  function Wanted(co: Co): Option<nat> {
    if (co.pc.Acquire? || co.pc.Reacquire?) && co.pc.k < |co.pc.job.locks| then Some(co.pc.job.locks[co.pc.k]) else None
  }

  predicate LocksIn(job: Job, n: nat) { forall a :: 0 <= a < |job.locks| ==> job.locks[a] < n }

  predicate Enabled(s: State, a: Action) {
    a.i < |s.cos| &&
    var co := s.cos[a.i];
    match a
    case Begin(i, job) => co.pc.Idle? && co.status.Running? && co.rel == 0 && JobOk(job, |s.chans|)
    case Lock(i) => Wanted(co).Some? && Wanted(co).value < |s.chans| && s.chans[Wanted(co).value].lock.None?
    case Pop(i) => InCase(s, i) && PeerQueue(s, i) != [] && PeerQueue(s, i)[0].co < |s.cos| && !co.pc.job.kind.Submit?
    case Skip(i) => InCase(s, i) && (PeerQueue(s, i) == [] || co.pc.job.kind.Submit?)
    case Buffered(i) =>
      InCase(s, i) && (co.pc.job.kind.Plain? || co.pc.job.kind.Select?) &&
      (co.pc.job.cases[co.pc.i].send ==> PeerQueue(s, i) == [])
    case Block(i) => co.pc.Try? && co.pc.i == |co.pc.job.cases| && co.pc.job.block
    case Fail(i) => co.pc.Try? && co.pc.i == |co.pc.job.cases| && (co.pc.job.block ==> co.pc.job.kind.Plain?)
    case MakeReady(i) => co.pc.Owe? && co.pc.target < |s.cos|
    case Unlock(i) => co.pc.Release? && 0 < co.pc.k <= |co.pc.job.locks| && LocksIn(co.pc.job, |s.chans|)
    case CoreWait(i) => co.pc.Enqueued?
    case HandOff(i) =>
      (co.pc.Parked? || co.pc.Reacquire?) && 0 < co.rel <= |co.pc.job.locks| && LocksIn(co.pc.job, |s.chans|)
    case Resume(i) => co.pc.Parked? && co.status.Ready?
    case Finish(i) => co.pc.Finishing?
  }

  function SetCo(s: State, i: nat, co: Co): State
    requires i < |s.cos|
  {
    s.(cos := s.cos[i := co])
  }

  function SetLock(s: State, c: nat, owner: Option<nat>): State
    requires c < |s.chans|
  {
    s.(chans := s.chans[c := s.chans[c].(lock := owner)])
  }

  function LockStep(s: State, i: nat): State
    requires Enabled(s, Lock(i))
  {
    var co := s.cos[i];
    var (job, k) := (co.pc.job, co.pc.k + 1);
    var pc := if co.pc.Acquire? then (if k == |job.locks| then Try(job, 0) else Acquire(job, k))
              else (if k == |job.locks| then Finishing(job) else Reacquire(job, k));
    SetCo(SetLock(s, Wanted(co).value, Some(i)), i, co.(pc := pc))
  }

  /** The case at hand succeeds; a select reports its channel. */
  function Success(co: Co, pc: Pc): Co
    requires co.pc.Try? && co.pc.i < |co.pc.job.cases|
  {
    co.(pc := pc, served := co.served + [co.pc.i],
        active := if co.pc.job.kind.Select? then Some(co.pc.job.cases[co.pc.i].chan) else co.active)
  }

  /** fetch_quantum removes the head; a select quantum counts only if the CAS on the tag wins.  The
      pool thread drops the mutex before it makes the submitter ready. */
  function PopStep(s: State, i: nat): State
    requires Enabled(s, Pop(i))
  {
    var co := s.cos[i];
    var job := co.pc.job;
    var c := job.cases[co.pc.i];
    var q := PeerQueue(s, i)[0];
    var s1 := s.(chans := s.chans[c.chan := SetQueue(s.chans[c.chan], !c.send, PeerQueue(s, i)[1..])]);
    var peer := s.cos[q.co];
    if q.select && peer.tag.Some? then s1
    else
      var s2 := SetCo(s1, q.co, peer.(tag := if q.select then Some(c.chan) else peer.tag, hits := peer.hits + [q.idx]));
      var s3 := if job.kind.Work? then SetLock(s2, c.chan, None) else s2;
      SetCo(s3, i, Success(s3.cos[i], Owe(job, co.pc.i, q.co)))
  }

  function BlockStep(s: State, i: nat): State
    requires Enabled(s, Block(i))
  {
    var co := s.cos[i];
    var job := co.pc.job;
    var chans := seq(|s.chans|, c requires 0 <= c < |s.chans| =>
      var k := CaseOn(job.cases, c);
      if k < |job.cases| then
        var send := job.cases[k].send;
        SetQueue(s.chans[c], send, Queue(s.chans[c], send) + [Quantum(i, k, job.kind.Select?)])
      else s.chans[c]);
    State(chans, s.cos[i := co.(pc := Enqueued(job), tag := None, hits := [], readies := 0, active := None)])
  }

  function Without(q: seq<Quantum>, i: nat): (r: seq<Quantum>)
    ensures forall x :: x in r <==> x in q && x.co != i
    ensures |r| <= |q|
  {
    if q == [] then [] else if q[0].co == i then Without(q[1..], i) else [q[0]] + Without(q[1..], i)
  }

  function FinishStep(s: State, i: nat): State
    requires Enabled(s, Finish(i))
  {
    var co := s.cos[i];
    var job := co.pc.job;
    if job.kind.Select? then
      var chans := seq(|s.chans|, c requires 0 <= c < |s.chans| =>
        var k := CaseOn(job.cases, c);
        if k < |job.cases| then
          var send := job.cases[k].send;
          SetQueue(s.chans[c], send, Without(Queue(s.chans[c], send), i))
        else s.chans[c]);
      State(chans, s.cos[i := co.(pc := Release(job, |job.locks|), tag := None, active := co.tag)])
    else
      SetCo(s, i, co.(pc := Release(job, |job.locks|)))
  }

  function MakeReadyStep(s: State, i: nat): State
    requires Enabled(s, MakeReady(i))
  {
    var co := s.cos[i];
    var (job, peer) := (co.pc.job, s.cos[co.pc.target]);
    var s1 := SetCo(s, co.pc.target, peer.(status := Ready, readies := peer.readies + 1));
    var pc := if job.kind.Close? then Try(job, co.pc.i)
              else if job.kind.Work? then Idle
              else Release(job, |job.locks|);
    SetCo(s1, i, s1.cos[i].(pc := pc))
  }

  function Step(s: State, a: Action): State
    requires Enabled(s, a)
  {
    var co := s.cos[a.i];
    match a
    case Begin(i, job) => SetCo(s, i, co.(pc := Acquire(job, 0), hits := [], readies := 0, active := None, served := []))
    case Lock(i) => LockStep(s, i)
    case Pop(i) => PopStep(s, i)
    case Skip(i) => SetCo(s, i, co.(pc := Try(co.pc.job, co.pc.i + 1)))
    case Buffered(i) => SetCo(s, i, Success(co, Release(co.pc.job, |co.pc.job.locks|)))
    case Block(i) => BlockStep(s, i)
    case Fail(i) => SetCo(s, i, co.(pc := Release(co.pc.job, |co.pc.job.locks|)))
    case MakeReady(i) => MakeReadyStep(s, i)
    case Unlock(i) =>
      var (job, k) := (co.pc.job, co.pc.k - 1);
      SetCo(SetLock(s, job.locks[k], None), i, co.(pc := if k == 0 then Idle else Release(job, k)))
    case CoreWait(i) => SetCo(s, i, co.(pc := Parked(co.pc.job), status := Waiting, rel := |co.pc.job.locks|))
    case HandOff(i) => SetCo(SetLock(s, co.pc.job.locks[co.rel - 1], None), i, co.(rel := co.rel - 1))
    case Resume(i) =>
      SetCo(s, i, co.(status := Running, pc := if co.pc.job.kind.Submit? then Idle else Reacquire(co.pc.job, 0)))
    case Finish(i) => FinishStep(s, i)
  }

  predicate Init(s: State) {
    (forall c :: 0 <= c < |s.chans| ==> s.chans[c] == Chan(None, [], [])) &&
    (forall i :: 0 <= i < |s.cos| ==> s.cos[i] == Co(Running, Idle, None, 0, [], 0, None, []))
  }

  /* ---- Invariant ---- */

  /** The locks held by an agent, or by core_wait on its behalf. */
  function Held(co: Co): seq<nat> {
    match co.pc
    case Idle => []
    case Acquire(job, k) => if k <= |job.locks| then job.locks[..k] else []
    case Try(job, _) => job.locks
    case Owe(job, _, _) => if job.kind.Work? then [] else job.locks
    case Release(job, k) => if k <= |job.locks| then job.locks[..k] else []
    case Enqueued(job) => job.locks
    case Parked(job) => if co.rel <= |job.locks| then job.locks[..co.rel] else []
    case Reacquire(job, k) =>
      var n := if co.rel > 0 then co.rel else k;
      if n <= |job.locks| then job.locks[..n] else []
    case Finishing(job) => job.locks
  }

  /** Between enqueueing its quanta and extracting them. */
  predicate Suspended(co: Co) {
    co.pc.Enqueued? || co.pc.Parked? || co.pc.Reacquire? || co.pc.Finishing?
  }

  /** At most one case was completed, and the tag of a selector names its channel. */
  predicate HitsOk(co: Co, job: Job) {
    job.block && |co.hits| <= 1 &&
    (co.hits != [] ==> co.hits[0] < |job.cases|) &&
    (job.kind.Select? ==> co.tag == if co.hits == [] then None else Some(job.cases[co.hits[0]].chan))
  }

  predicate CoOk(co: Co, n: nat) {
    (!co.pc.Idle? ==> JobOk(co.pc.job, n)) &&
    (!co.pc.Parked? ==> co.status.Running?) &&
    (!co.pc.Parked? && !co.pc.Reacquire? ==> co.rel == 0) &&
    match co.pc
    case Idle => true
    case Acquire(job, k) => k < |job.locks|
    case Try(job, i) => i <= |job.cases|
    case Owe(job, i, _) => i < |job.cases|
    case Release(job, k) => 0 < k <= |job.locks|
    case Enqueued(job) => HitsOk(co, job) && co.hits == [] && co.readies == 0
    case Parked(job) =>
      HitsOk(co, job) && !co.status.Running? && co.rel <= |job.locks| &&
      (co.hits != [] && |job.locks| == 1 ==> co.rel == 0) &&
      if co.status.Waiting? then co.readies == 0 else co.readies == 1 && co.hits != []
    case Reacquire(job, k) =>
      HitsOk(co, job) && co.hits != [] && co.readies == 1 && k < |job.locks| && co.rel <= |job.locks| && (co.rel > 0 ==> k == 0)
    case Finishing(job) => HitsOk(co, job) && co.hits != [] && co.readies == 1
  }

  ghost predicate CosOk(s: State) {
    forall i :: 0 <= i < |s.cos| ==> CoOk(s.cos[i], |s.chans|)
  }

  ghost predicate LocksOk(s: State) {
    forall c :: 0 <= c < |s.chans| ==>
      (s.chans[c].lock.Some? ==> s.chans[c].lock.value < |s.cos|) &&
      forall i :: 0 <= i < |s.cos| ==> (s.chans[c].lock == Some(i) <==> c in Held(s.cos[i]))
  }

  /** A queued quantum stands for the right case of a suspended agent; a plain one only until a
      peer completes it. */
  predicate QuantumOk(s: State, c: nat, send: bool, q: Quantum) {
    q.co < |s.cos| && Suspended(s.cos[q.co]) &&
    var co := s.cos[q.co];
    q.idx < |co.pc.job.cases| && co.pc.job.cases[q.idx] == Case(c, send) &&
    q.select == co.pc.job.kind.Select? && (!q.select ==> co.hits == [])
  }

  ghost predicate QuantaOk(s: State) {
    (forall c, send, q :: 0 <= c < |s.chans| && q in Queue(s.chans[c], send) ==> QuantumOk(s, c, send, q)) &&
    (forall c, send :: 0 <= c < |s.chans| ==> OnePerCo(Queue(s.chans[c], send)))
  }

  predicate OnePerCo(q: seq<Quantum>) {
    forall j, k :: 0 <= j < k < |q| ==> q[j].co != q[k].co
  }

  /** A pending vpu_ready has a target that is in WAIT, was completed, and is nobody else's target. */
  ghost predicate OwesOk(s: State) {
    (forall i :: 0 <= i < |s.cos| && s.cos[i].pc.Owe? ==>
      var t := s.cos[i].pc.target;
      t < |s.cos| && s.cos[t].pc.Parked? && s.cos[t].status.Waiting? && s.cos[t].hits != []) &&
    (forall i, j :: 0 <= i < j < |s.cos| && s.cos[i].pc.Owe? && s.cos[j].pc.Owe? ==>
      s.cos[i].pc.target != s.cos[j].pc.target)
  }

  ghost predicate Inv(s: State) {
    CosOk(s) && LocksOk(s) && QuantaOk(s) && OwesOk(s)
  }

  /* ---- Steps of one agent that leave the queues alone ---- */

  predicate SameQueues(s: State, s': State) {
    |s'.chans| == |s.chans| &&
    forall c :: 0 <= c < |s.chans| ==> s'.chans[c].recvQ == s.chans[c].recvQ && s'.chans[c].sendQ == s.chans[c].sendQ
  }

  ghost predicate NoQuanta(s: State, i: nat) {
    forall c, send, q :: 0 <= c < |s.chans| && q in Queue(s.chans[c], send) ==> q.co != i
  }

  /** The queues hold what they held, or less. */
  ghost predicate NoNewQuanta(s: State, s': State) {
    |s'.chans| == |s.chans| &&
    (forall c, send, q :: 0 <= c < |s.chans| && q in Queue(s'.chans[c], send) ==> q in Queue(s.chans[c], send)) &&
    (forall c, send :: 0 <= c < |s.chans| ==> OnePerCo(Queue(s'.chans[c], send)))
  }

  /** What a pending vpu_ready knows about its target stays true, and no new one appears. */
  predicate SameDebts(co: Co, co': Co) {
    (co.pc.Parked? && co.status.Waiting? && co.hits != [] ==> co'.pc.Parked? && co'.status.Waiting? && co'.hits != []) &&
    (co'.pc.Owe? ==> co.pc.Owe? && co'.pc.target == co.pc.target)
  }

  predicate SameSuspension(co: Co, co': Co) {
    Suspended(co) ==> Suspended(co') && co'.pc.job == co.pc.job && (co'.hits == co.hits || co.pc.job.kind.Select?)
  }

  predicate Unowed(s: State, i: nat) {
    forall j :: 0 <= j < |s.cos| && s.cos[j].pc.Owe? ==> s.cos[j].pc.target != i
  }

  lemma OwnStep(s: State, s': State, i: nat)
    requires Inv(s) && i < |s.cos| && |s'.cos| == |s.cos| && s'.cos == s.cos[i := s'.cos[i]]
    requires NoNewQuanta(s, s') && (SameSuspension(s.cos[i], s'.cos[i]) || NoQuanta(s', i))
    requires SameDebts(s.cos[i], s'.cos[i]) || (Unowed(s, i) && !s'.cos[i].pc.Owe?)
    requires CoOk(s'.cos[i], |s.chans|) && LocksOk(s')
    ensures Inv(s')
  {
    forall c, send, q | 0 <= c < |s'.chans| && q in Queue(s'.chans[c], send) ensures QuantumOk(s', c, send, q) {
      assert q in Queue(s.chans[c], send);
    }
  }

  lemma SameQueuesNoNew(s: State, s': State)
    requires QuantaOk(s) && SameQueues(s, s')
    ensures NoNewQuanta(s, s')
  {
    forall c, send | 0 <= c < |s.chans| ensures OnePerCo(Queue(s'.chans[c], send)) {
      assert Queue(s'.chans[c], send) == Queue(s.chans[c], send);
    }
  }

  /** An agent moves on while the queues, its suspension and its debts stay as they are. */
  lemma QuietStep(s: State, s': State, i: nat)
    requires Inv(s) && i < |s.cos| && |s'.cos| == |s.cos| && s'.cos == s.cos[i := s'.cos[i]]
    requires SameQueues(s, s') && SameSuspension(s.cos[i], s'.cos[i]) && SameDebts(s.cos[i], s'.cos[i])
    requires CoOk(s'.cos[i], |s.chans|) && LocksOk(s')
    ensures Inv(s')
  {
    SameQueuesNoNew(s, s');
    OwnStep(s, s', i);
  }

  /** Nothing changes but the agent, which keeps the locks it has. */
  lemma SameLocks(s: State, i: nat, co: Co)
    requires LocksOk(s) && i < |s.cos| && Held(co) == Held(s.cos[i])
    ensures LocksOk(SetCo(s, i, co))
  {}

  lemma TakeLock(s: State, i: nat, c: nat, co: Co)
    requires LocksOk(s) && i < |s.cos| && c < |s.chans| && s.chans[c].lock.None?
    requires forall x :: x in Held(co) <==> x == c || x in Held(s.cos[i])
    ensures LocksOk(SetCo(SetLock(s, c, Some(i)), i, co))
  {}

  lemma DropLock(s: State, i: nat, c: nat, co: Co)
    requires LocksOk(s) && i < |s.cos| && c < |s.chans| && c in Held(s.cos[i])
    requires forall x :: x in Held(co) <==> x != c && x in Held(s.cos[i])
    ensures LocksOk(SetCo(SetLock(s, c, None), i, co))
  {}

  lemma Prefix(locks: seq<nat>, k: nat)
    requires Ascending(locks) && k < |locks|
    ensures forall x :: x in locks[..k + 1] <==> x == locks[k] || x in locks[..k]
    ensures locks[k] !in locks[..k]
    ensures locks[..|locks|] == locks
  {
    assert locks[..k + 1] == locks[..k] + [locks[k]];
  }

  lemma MoveKeeps(s: State, a: Action)
    requires Inv(s) && Enabled(s, a) && (a.Begin? || a.Skip? || a.Buffered? || a.Fail? || a.CoreWait?)
    ensures Inv(Step(s, a))
  {
    var s' := Step(s, a);
    SameLocks(s, a.i, s'.cos[a.i]);
    QuietStep(s, s', a.i);
  }

  lemma AcquireKeeps(s: State, i: nat)
    requires Inv(s) && Enabled(s, Lock(i)) && s.cos[i].pc.Acquire?
    ensures Inv(LockStep(s, i))
  {
    var co, s' := s.cos[i], LockStep(s, i);
    var locks, k := co.pc.job.locks, co.pc.k;
    assert CoOk(co, |s.chans|);
    Prefix(locks, k);
    TakeLock(s, i, locks[k], s'.cos[i]);
    QuietStep(s, s', i);
  }

  /** A resumed agent finds its first lock free only after core_wait has released all of them. */
  lemma ReleasedBefore(s: State, i: nat)
    requires Inv(s) && Enabled(s, Lock(i)) && s.cos[i].pc.Reacquire?
    ensures s.cos[i].rel == 0
  {
    assert CoOk(s.cos[i], |s.chans|);
  }

  lemma ReacquireLocks(s: State, i: nat)
    requires Inv(s) && Enabled(s, Lock(i)) && s.cos[i].pc.Reacquire? && s.cos[i].rel == 0
    ensures LocksOk(LockStep(s, i)) && CoOk(LockStep(s, i).cos[i], |s.chans|)
  {
    var co, s' := s.cos[i], LockStep(s, i);
    var locks, k := co.pc.job.locks, co.pc.k;
    assert CoOk(co, |s.chans|);
    Prefix(locks, k);
    TakeLock(s, i, locks[k], s'.cos[i]);
  }

  lemma ReacquireQuiet(s: State, i: nat)
    requires Enabled(s, Lock(i)) && s.cos[i].pc.Reacquire?
    ensures var s' := LockStep(s, i);
            && SameQueues(s, s') && SameSuspension(s.cos[i], s'.cos[i]) && SameDebts(s.cos[i], s'.cos[i])
            && |s'.cos| == |s.cos| && s'.cos == s.cos[i := s'.cos[i]]
  {}

  lemma ReacquireKeeps(s: State, i: nat)
    requires Inv(s) && Enabled(s, Lock(i)) && s.cos[i].pc.Reacquire?
    ensures Inv(LockStep(s, i))
  {
    ReleasedBefore(s, i);
    ReacquireLocks(s, i);
    ReacquireQuiet(s, i);
    QuietStep(s, LockStep(s, i), i);
  }

  lemma UnlockLocks(s: State, i: nat)
    requires Inv(s) && Enabled(s, Unlock(i))
    ensures LocksOk(Step(s, Unlock(i))) && CoOk(Step(s, Unlock(i)).cos[i], |s.chans|)
  {
    var co, s' := s.cos[i], Step(s, Unlock(i));
    var locks, k := co.pc.job.locks, co.pc.k - 1;
    assert CoOk(co, |s.chans|);
    Prefix(locks, k);
    DropLock(s, i, locks[k], s'.cos[i]);
  }

  lemma UnlockKeeps(s: State, i: nat)
    requires Inv(s) && Enabled(s, Unlock(i))
    ensures Inv(Step(s, Unlock(i)))
  {
    UnlockLocks(s, i);
    QuietStep(s, Step(s, Unlock(i)), i);
  }

  lemma HandOffDrops(s: State, i: nat)
    requires Inv(s) && Enabled(s, HandOff(i))
    ensures LocksOk(Step(s, HandOff(i))) && CoOk(Step(s, HandOff(i)).cos[i], |s.chans|)
  {
    var co, s' := s.cos[i], Step(s, HandOff(i));
    assert CoOk(co, |s.chans|);
    HandOffLocks(co, |s.chans|);
    DropLock(s, i, co.pc.job.locks[co.rel - 1], s'.cos[i]);
  }

  lemma HandOffKeeps(s: State, i: nat)
    requires Inv(s) && Enabled(s, HandOff(i))
    ensures Inv(Step(s, HandOff(i)))
  {
    HandOffDrops(s, i);
    QuietStep(s, Step(s, HandOff(i)), i);
  }

  lemma HandOffLocks(co: Co, n: nat)
    requires CoOk(co, n) && (co.pc.Parked? || co.pc.Reacquire?) && co.rel > 0
    ensures var (c, co') := (co.pc.job.locks[co.rel - 1], co.(rel := co.rel - 1));
            && c in Held(co) && CoOk(co', n)
            && forall x :: x in Held(co') <==> x != c && x in Held(co)
  {
    Prefix(co.pc.job.locks, co.rel - 1);
  }

  /** An agent that is not suspended, or whose plain operation was completed, is in no queue. */
  lemma Dequeued(s: State, i: nat)
    requires Inv(s) && i < |s.cos|
    requires !Suspended(s.cos[i]) || (s.cos[i].hits != [] && !s.cos[i].pc.job.kind.Select?)
    ensures NoQuanta(s, i)
  {
    forall c, send, q | 0 <= c < |s.chans| && q in Queue(s.chans[c], send) ensures q.co != i {
      assert QuantumOk(s, c, send, q);
    }
  }

  lemma ResumeKeeps(s: State, i: nat)
    requires Inv(s) && Enabled(s, Resume(i))
    ensures Inv(Step(s, Resume(i)))
  {
    var co, s' := s.cos[i], Step(s, Resume(i));
    assert CoOk(co, |s.chans|);
    assert co.pc.job.locks[..0] == [];
    SameLocks(s, i, s'.cos[i]);
    SameQueuesNoNew(s, s');
    if co.pc.job.kind.Submit? {
      Dequeued(s, i);
      assert forall c, send :: 0 <= c < |s.chans| ==> Queue(s'.chans[c], send) == Queue(s.chans[c], send);
    }
    OwnStep(s, s', i);
  }

  /* ---- Fetching a quantum ---- */

  /** The quantum at the head wins: it is plain, or the tag is still NULL. */
  predicate Wins(s: State, i: nat)
    requires Enabled(s, Pop(i))
  {
    var q := PeerQueue(s, i)[0];
    !q.select || s.cos[q.co].tag.None?
  }

  /** The owner of a winning quantum is in WAIT with nothing completed: its status was set before
      the lock that the fetcher now holds was released. */
  lemma WinnerWaits(s: State, i: nat)
    requires Inv(s) && Enabled(s, Pop(i)) && Wins(s, i)
    ensures var t := PeerQueue(s, i)[0].co;
            && t != i && s.cos[t].pc.Parked? && s.cos[t].status.Waiting? && s.cos[t].hits == []
            && Unowed(s, t)
            && (|s.cos[t].pc.job.locks| == 1 ==> s.cos[t].rel == 0)
  {
    var pc, q := s.cos[i].pc, PeerQueue(s, i)[0];
    var c := pc.job.cases[pc.i];
    assert q in Queue(s.chans[c.chan], !c.send) && QuantumOk(s, c.chan, !c.send, q);
    var peer := s.cos[q.co];
    assert CoOk(peer, |s.chans|) && CoOk(s.cos[i], |s.chans|);
    assert c.chan in Held(s.cos[i]);
    assert c.chan in peer.pc.job.locks;
    assert q.co != i && c.chan !in Held(peer);
  }

  /** Removing the head of a queue. */
  lemma TailQuanta(s: State, s': State, c: nat, send: bool)
    requires QuantaOk(s) && c < |s.chans| && Queue(s.chans[c], send) != [] && |s'.chans| == |s.chans|
    requires forall d, b :: 0 <= d < |s.chans| && (d != c || b != send) ==> Queue(s'.chans[d], b) == Queue(s.chans[d], b)
    requires Queue(s'.chans[c], send) == Queue(s.chans[c], send)[1..]
    ensures NoNewQuanta(s, s')
    ensures forall q :: q in Queue(s'.chans[c], send) ==> q.co != Queue(s.chans[c], send)[0].co
  {
    var old_ := Queue(s.chans[c], send);
    assert OnePerCo(old_);
    forall d, b | 0 <= d < |s.chans| ensures OnePerCo(Queue(s'.chans[d], b)) {
      assert OnePerCo(Queue(s.chans[d], b));
    }
    forall q | q in old_[1..] ensures q.co != old_[0].co {
      var k :| 0 <= k < |old_[1..]| && old_[1..][k] == q;
      assert old_[k + 1].co != old_[0].co;
    }
  }

  /** A loser is dropped and nothing else happens. */
  lemma DropKeeps(s: State, i: nat)
    requires Inv(s) && Enabled(s, Pop(i)) && !Wins(s, i)
    ensures Inv(PopStep(s, i)) && PopStep(s, i).cos == s.cos
  {
    var c, s' := s.cos[i].pc.job.cases[s.cos[i].pc.i], PopStep(s, i);
    TailQuanta(s, s', c.chan, !c.send);
    assert s.cos[i := s.cos[i]] == s.cos;
    OwnStep(s, s', i);
  }

  lemma OneCase(job: Job, n: nat, a: nat, b: nat)
    requires JobOk(job, n) && !job.kind.Select? && !job.kind.Close? && a < |job.cases| && b < |job.cases|
    ensures a == b
  {
    assert job.cases[a].chan in job.locks && job.cases[b].chan in job.locks;
  }

  /** After a plain operation is completed its owner is in no queue. */
  lemma PlainGone(s: State, s': State, i: nat)
    requires Inv(s) && Enabled(s, Pop(i))
    requires var (pc, q) := (s.cos[i].pc, PeerQueue(s, i)[0]);
             var c := pc.job.cases[pc.i];
             !q.select && NoNewQuanta(s, s') &&
             forall x :: x in Queue(s'.chans[c.chan], !c.send) ==> x.co != q.co
    ensures NoQuanta(s', PeerQueue(s, i)[0].co)
  {
    var pc, q := s.cos[i].pc, PeerQueue(s, i)[0];
    var c := pc.job.cases[pc.i];
    assert q in Queue(s.chans[c.chan], !c.send) && QuantumOk(s, c.chan, !c.send, q);
    assert CoOk(s.cos[q.co], |s.chans|);
    forall d, b, x | 0 <= d < |s'.chans| && x in Queue(s'.chans[d], b) ensures x.co != q.co {
      assert x in Queue(s.chans[d], b) && QuantumOk(s, d, b, x);
      if x.co == q.co { OneCase(s.cos[q.co].pc.job, |s.chans|, x.idx, q.idx); }
    }
  }

  /** The state after a winning fetch, before the fetcher moves on. */
  function Completed(s: State, i: nat): State
    requires Enabled(s, Pop(i))
  {
    var pc := s.cos[i].pc;
    var (c, q) := (pc.job.cases[pc.i], PeerQueue(s, i)[0]);
    var peer := s.cos[q.co];
    State(s.chans[c.chan := SetQueue(s.chans[c.chan], !c.send, PeerQueue(s, i)[1..])],
          s.cos[q.co := peer.(tag := if q.select then Some(c.chan) else peer.tag, hits := peer.hits + [q.idx])])
  }

  /** The completed peer is as it should be, and so are the queues. */
  lemma CompletedPeer(s: State, i: nat)
    requires Inv(s) && Enabled(s, Pop(i)) && Wins(s, i)
    ensures var (t, s') := (PeerQueue(s, i)[0].co, Completed(s, i));
            && CoOk(s'.cos[t], |s.chans|) && Held(s'.cos[t]) == Held(s.cos[t]) && Unowed(s, t) && !s'.cos[t].pc.Owe?
            && (SameSuspension(s.cos[t], s'.cos[t]) || !PeerQueue(s, i)[0].select)
  {
    var pc, q := s.cos[i].pc, PeerQueue(s, i)[0];
    var c := pc.job.cases[pc.i];
    WinnerWaits(s, i);
    assert q in Queue(s.chans[c.chan], !c.send) && QuantumOk(s, c.chan, !c.send, q);
    assert CoOk(s.cos[q.co], |s.chans|);
  }

  lemma CompletedKeeps(s: State, i: nat)
    requires Inv(s) && Enabled(s, Pop(i)) && Wins(s, i)
    ensures Inv(Completed(s, i))
  {
    var pc, q := s.cos[i].pc, PeerQueue(s, i)[0];
    var c, s' := pc.job.cases[pc.i], Completed(s, i);
    CompletedPeer(s, i);
    TailQuanta(s, s', c.chan, !c.send);
    if !q.select { PlainGone(s, s', i); }
    SameLocks(s, q.co, s'.cos[q.co]);
    OwnStep(s, s', q.co);
  }

  /** The fetcher now owes its peer a vpu_ready. */
  ghost predicate Owing(s: State, s': State, i: nat, t: nat) {
    i < |s.cos| && t < |s.cos| && i != t && s.cos[i].pc.Try? && s.cos[i].pc.i < |s.cos[i].pc.job.cases| &&
    s.cos[t].pc.Parked? && s.cos[t].status.Waiting? && s.cos[t].hits != [] && Unowed(s, t) &&
    s'.cos == s.cos[i := Success(s.cos[i], Owe(s.cos[i].pc.job, s.cos[i].pc.i, t))] && SameQueues(s, s')
  }

  lemma OweDebts(s: State, s': State, i: nat, t: nat)
    requires Inv(s) && Owing(s, s', i, t)
    ensures CosOk(s') && OwesOk(s')
  {
    assert CoOk(s.cos[i], |s.chans|);
  }

  lemma OweKeeps(s: State, s': State, i: nat, t: nat)
    requires Inv(s) && Owing(s, s', i, t) && LocksOk(s')
    ensures Inv(s')
  {
    OweDebts(s, s', i, t);
    SameQueuesNoNew(s, s');
    forall c, send, q | 0 <= c < |s'.chans| && q in Queue(s'.chans[c], send) ensures QuantumOk(s', c, send, q) {
      assert q in Queue(s.chans[c], send);
    }
  }

  lemma PeerWinKeeps(s: State, i: nat)
    requires Inv(s) && Enabled(s, Pop(i)) && Wins(s, i) && !s.cos[i].pc.job.kind.Work?
    ensures Inv(PopStep(s, i))
  {
    var pc, t := s.cos[i].pc, PeerQueue(s, i)[0].co;
    var m := Completed(s, i);
    WinnerWaits(s, i);
    CompletedKeeps(s, i);
    var co' := Success(s.cos[i], Owe(pc.job, pc.i, t));
    SameLocks(m, i, co');
    OweKeeps(m, SetCo(m, i, co'), i, t);
    assert PopStep(s, i) == SetCo(m, i, co');
  }

  lemma PoolWinKeeps(s: State, i: nat)
    requires Inv(s) && Enabled(s, Pop(i)) && Wins(s, i) && s.cos[i].pc.job.kind.Work?
    ensures Inv(PopStep(s, i))
  {
    var pc, t := s.cos[i].pc, PeerQueue(s, i)[0].co;
    var m := Completed(s, i);
    WinnerWaits(s, i);
    CompletedKeeps(s, i);
    var co' := Success(s.cos[i], Owe(pc.job, pc.i, t));
    var s' := SetCo(SetLock(m, pc.job.cases[pc.i].chan, None), i, co');
    WorkLocks(m, i, co');
    OweKeeps(m, s', i, t);
    assert PopStep(s, i) == s';
  }

  lemma WinKeeps(s: State, i: nat)
    requires Inv(s) && Enabled(s, Pop(i)) && Wins(s, i)
    ensures Inv(PopStep(s, i))
  {
    if s.cos[i].pc.job.kind.Work? { PoolWinKeeps(s, i); } else { PeerWinKeeps(s, i); }
  }

  /** A pool thread holds just the mutex of the pool, and drops it. */
  lemma WorkLocks(s: State, i: nat, co: Co)
    requires Inv(s) && InCase(s, i) && s.cos[i].pc.job.kind.Work? && Held(co) == []
    ensures LocksOk(SetCo(SetLock(s, s.cos[i].pc.job.cases[s.cos[i].pc.i].chan, None), i, co))
  {
    var pc := s.cos[i].pc;
    assert CoOk(s.cos[i], |s.chans|);
    var c := pc.job.cases[pc.i].chan;
    assert c in pc.job.locks && pc.job.locks == [pc.job.locks[0]];
    DropLock(s, i, c, co);
  }

  /* ---- vpu_ready ---- */

  /** The assertion in vpu_ready: its target is in WAIT, and this is the first one for it. */
  lemma TargetWaits(s: State, i: nat)
    requires Inv(s) && Enabled(s, MakeReady(i))
    ensures var t := s.cos[i].pc.target;
            t != i && s.cos[t].pc.Parked? && s.cos[t].status.Waiting? && |s.cos[t].hits| == 1 && s.cos[t].readies == 0
  {
    assert CoOk(s.cos[s.cos[i].pc.target], |s.chans|);
  }

  /** The caller of vpu_ready moves on... */
  lemma CallerKeeps(s: State, i: nat)
    requires Inv(s) && Enabled(s, MakeReady(i))
    ensures var m := SetCo(s, i, MakeReadyStep(s, i).cos[i]); Inv(m) && Unowed(m, s.cos[i].pc.target)
  {
    var co' := MakeReadyStep(s, i).cos[i];
    var job := s.cos[i].pc.job;
    TargetWaits(s, i);
    assert CoOk(s.cos[i], |s.chans|);
    assert job.locks[..|job.locks|] == job.locks;
    SameLocks(s, i, co');
    QuietStep(s, SetCo(s, i, co'), i);
  }

  /** ...and its target becomes READY. */
  lemma MakeReadyKeeps(s: State, i: nat)
    requires Inv(s) && Enabled(s, MakeReady(i))
    ensures Inv(MakeReadyStep(s, i))
  {
    var t, s' := s.cos[i].pc.target, MakeReadyStep(s, i);
    TargetWaits(s, i);
    CallerKeeps(s, i);
    var m := SetCo(s, i, s'.cos[i]);
    assert CoOk(s.cos[t], |s.chans|);
    SameLocks(m, t, s'.cos[t]);
    assert s' == SetCo(m, t, s'.cos[t]);
    SameQueuesNoNew(m, s');
    OwnStep(m, s', t);
  }

  /* ---- Enqueueing and extracting ---- */

  predicate CaseSide(cases: seq<Case>, c: nat, send: bool) {
    var k := CaseOn(cases, c);
    k < |cases| && cases[k].send == send
  }

  /** A queue after enqueueing: unchanged, or with the quantum of the case on that side. */
  lemma BlockQueue(s: State, i: nat, c: nat, send: bool)
    requires Enabled(s, Block(i)) && c < |s.chans|
    ensures |BlockStep(s, i).chans| == |s.chans|
    ensures var (q, q', job) := (Queue(s.chans[c], send), Queue(BlockStep(s, i).chans[c], send), s.cos[i].pc.job);
            q' == if CaseSide(job.cases, c, send) then q + [Quantum(i, CaseOn(job.cases, c), job.kind.Select?)] else q
  {}

  lemma OnePerCoAppend(q: seq<Quantum>, x: Quantum)
    requires OnePerCo(q) && forall y :: y in q ==> y.co != x.co
    ensures OnePerCo(q + [x])
  {
    assert forall j :: 0 <= j < |q| ==> q[j] in q;
  }

  /** The new quantum stands for a case of the agent that now suspends. */
  lemma BlockOwn(s: State, i: nat, c: nat, send: bool)
    requires Inv(s) && Enabled(s, Block(i)) && c < |s.chans| && CaseSide(s.cos[i].pc.job.cases, c, send)
    ensures var job := s.cos[i].pc.job;
            QuantumOk(BlockStep(s, i), c, send, Quantum(i, CaseOn(job.cases, c), job.kind.Select?))
  {
    assert CoOk(s.cos[i], |s.chans|);
  }

  /** The others are as they were. */
  lemma BlockOther(s: State, i: nat, c: nat, send: bool, x: Quantum)
    requires Enabled(s, Block(i)) && c < |s.chans| && QuantumOk(s, c, send, x) && x.co != i
    ensures QuantumOk(BlockStep(s, i), c, send, x)
  {
    assert BlockStep(s, i).cos[x.co] == s.cos[x.co];
  }

  lemma BlockQuantaAt(s: State, i: nat, c: nat, send: bool)
    requires Inv(s) && Enabled(s, Block(i)) && NoQuanta(s, i) && c < |s.chans|
    ensures var s' := BlockStep(s, i);
            && |s'.chans| == |s.chans| && OnePerCo(Queue(s'.chans[c], send))
            && forall q :: q in Queue(s'.chans[c], send) ==> QuantumOk(s', c, send, q)
  {
    var (q, job) := (Queue(s.chans[c], send), s.cos[i].pc.job);
    BlockQueue(s, i, c, send);
    assert OnePerCo(q);
    forall x | x in q ensures x.co != i && QuantumOk(BlockStep(s, i), c, send, x) {
      assert QuantumOk(s, c, send, x);
      BlockOther(s, i, c, send, x);
    }
    if CaseSide(job.cases, c, send) {
      BlockOwn(s, i, c, send);
      OnePerCoAppend(q, Quantum(i, CaseOn(job.cases, c), job.kind.Select?));
    }
  }

  lemma BlockQuanta(s: State, i: nat)
    requires Inv(s) && Enabled(s, Block(i))
    ensures QuantaOk(BlockStep(s, i))
  {
    var s' := BlockStep(s, i);
    assert CoOk(s.cos[i], |s.chans|);
    Dequeued(s, i);
    forall c, send | 0 <= c < |s.chans|
      ensures OnePerCo(Queue(s'.chans[c], send))
      ensures forall q :: q in Queue(s'.chans[c], send) ==> QuantumOk(s', c, send, q)
    {
      BlockQuantaAt(s, i, c, send);
    }
  }

  lemma BlockCos(s: State, i: nat)
    requires Inv(s) && Enabled(s, Block(i))
    ensures CosOk(BlockStep(s, i)) && OwesOk(BlockStep(s, i))
  {
    assert CoOk(s.cos[i], |s.chans|);
  }

  /** Nobody took or released a lock. */
  lemma LocksUnmoved(s: State, s': State)
    requires LocksOk(s) && |s'.chans| == |s.chans| && |s'.cos| == |s.cos|
    requires forall c :: 0 <= c < |s.chans| ==> s'.chans[c].lock == s.chans[c].lock
    requires forall j :: 0 <= j < |s.cos| ==> Held(s'.cos[j]) == Held(s.cos[j])
    ensures LocksOk(s')
  {}

  lemma BlockLock(s: State, i: nat, c: nat)
    requires Enabled(s, Block(i)) && c < |s.chans|
    ensures |BlockStep(s, i).chans| == |s.chans| && BlockStep(s, i).chans[c].lock == s.chans[c].lock
  {}

  lemma BlockLocks(s: State, i: nat)
    requires Inv(s) && Enabled(s, Block(i))
    ensures LocksOk(BlockStep(s, i))
  {
    var s' := BlockStep(s, i);
    forall c | 0 <= c < |s.chans| ensures s'.chans[c].lock == s.chans[c].lock { BlockLock(s, i, c); }
    assert Held(s'.cos[i]) == Held(s.cos[i]);
    LocksUnmoved(s, s');
  }

  lemma BlockKeeps(s: State, i: nat)
    requires Inv(s) && Enabled(s, Block(i))
    ensures Inv(BlockStep(s, i))
  {
    BlockQuanta(s, i);
    BlockCos(s, i);
    BlockLocks(s, i);
  }

  lemma {:induction false} WithoutOnePerCo(q: seq<Quantum>, i: nat)
    requires OnePerCo(q)
    ensures OnePerCo(Without(q, i))
  {
    if q != [] {
      assert OnePerCo(q[1..]);
      WithoutOnePerCo(q[1..], i);
      assert forall x :: x in Without(q[1..], i) ==> x in q[1..];
    }
  }

  lemma FinishKeeps(s: State, i: nat)
    requires Inv(s) && Enabled(s, Finish(i))
    ensures Inv(FinishStep(s, i)) && NoQuanta(FinishStep(s, i), i)
  {
    var s' := FinishStep(s, i);
    FinishLocks(s, i);
    if s.cos[i].pc.job.kind.Select? {
      FinishQuanta(s, i);
    } else {
      FinishPlain(s, i);
    }
    OwnStep(s, s', i);
  }

  lemma FinishLocks(s: State, i: nat)
    requires Inv(s) && Enabled(s, Finish(i))
    ensures var s' := FinishStep(s, i); LocksOk(s') && |s'.chans| == |s.chans| && CoOk(s'.cos[i], |s.chans|)
  {
    var co, s' := s.cos[i], FinishStep(s, i);
    var job := co.pc.job;
    assert CoOk(co, |s.chans|);
    assert Held(s'.cos[i]) == Held(co) by { assert job.locks[..|job.locks|] == job.locks; }
    assert forall c :: 0 <= c < |s.chans| ==> s'.chans[c].lock == s.chans[c].lock;
    LocksUnmoved(s, s');
  }

  lemma FinishPlain(s: State, i: nat)
    requires Inv(s) && Enabled(s, Finish(i)) && !s.cos[i].pc.job.kind.Select?
    ensures NoNewQuanta(s, FinishStep(s, i)) && NoQuanta(FinishStep(s, i), i)
  {
    assert CoOk(s.cos[i], |s.chans|);
    assert FinishStep(s, i).chans == s.chans;
    Dequeued(s, i);
    SameQueuesNoNew(s, FinishStep(s, i));
  }

  lemma FinishShape(s: State, i: nat, c: nat, send: bool)
    requires Enabled(s, Finish(i)) && s.cos[i].pc.job.kind.Select? && c < |s.chans|
    ensures |FinishStep(s, i).chans| == |s.chans|
    ensures var q := Queue(s.chans[c], send);
            Queue(FinishStep(s, i).chans[c], send) == if CaseSide(s.cos[i].pc.job.cases, c, send) then Without(q, i) else q
  {}

  /** Every quantum of a selector sits in the queue of its case, so all of them are extracted. */
  lemma SelectorElsewhere(s: State, i: nat, c: nat, send: bool)
    requires Inv(s) && Enabled(s, Finish(i)) && c < |s.chans| && !s.cos[i].pc.job.kind.Close?
    requires !CaseSide(s.cos[i].pc.job.cases, c, send)
    ensures forall x :: x in Queue(s.chans[c], send) ==> x.co != i
  {
    assert CoOk(s.cos[i], |s.chans|);
    forall x | x in Queue(s.chans[c], send) ensures x.co != i {
      assert QuantumOk(s, c, send, x);
      if x.co == i { CaseIsFirst(s.cos[i].pc.job, |s.chans|, x.idx, c, send); }
    }
  }

  /** Distinct channels: a case on a channel is the first one on it. */
  lemma CaseIsFirst(job: Job, n: nat, k: nat, c: nat, send: bool)
    requires JobOk(job, n) && !job.kind.Close? && k < |job.cases| && job.cases[k] == Case(c, send)
    ensures CaseSide(job.cases, c, send) && CaseOn(job.cases, c) == k
  {
    assert forall a :: 0 <= a < k ==> job.cases[a].chan != job.cases[k].chan;
    assert CaseOn(job.cases, c) == k;
  }

  lemma FinishQueue(s: State, i: nat, c: nat, send: bool)
    requires Inv(s) && Enabled(s, Finish(i)) && s.cos[i].pc.job.kind.Select? && c < |s.chans|
    ensures |FinishStep(s, i).chans| == |s.chans|
    ensures var (q, q') := (Queue(s.chans[c], send), Queue(FinishStep(s, i).chans[c], send));
            OnePerCo(q') && forall x :: x in q' ==> x in q && x.co != i
  {
    var q := Queue(s.chans[c], send);
    assert OnePerCo(q);
    FinishShape(s, i, c, send);
    if CaseSide(s.cos[i].pc.job.cases, c, send) {
      WithoutOnePerCo(q, i);
    } else {
      SelectorElsewhere(s, i, c, send);
    }
  }

  lemma FinishQuanta(s: State, i: nat)
    requires Inv(s) && Enabled(s, Finish(i)) && s.cos[i].pc.job.kind.Select?
    ensures NoNewQuanta(s, FinishStep(s, i)) && NoQuanta(FinishStep(s, i), i)
  {
    forall c, send | 0 <= c < |s.chans|
      ensures OnePerCo(Queue(FinishStep(s, i).chans[c], send))
      ensures forall x :: x in Queue(FinishStep(s, i).chans[c], send) ==> x in Queue(s.chans[c], send) && x.co != i
    {
      FinishQueue(s, i, c, send);
    }
  }

  lemma StepKeepsInv(s: State, a: Action)
    requires Inv(s) && Enabled(s, a)
    ensures Inv(Step(s, a))
  {
    match a {
      case Lock(i) => if s.cos[i].pc.Acquire? { AcquireKeeps(s, i); } else { ReacquireKeeps(s, i); }
      case Pop(i) => if Wins(s, i) { WinKeeps(s, i); } else { DropKeeps(s, i); }
      case Block(i) => BlockKeeps(s, i);
      case MakeReady(i) => MakeReadyKeeps(s, i);
      case Unlock(i) => UnlockKeeps(s, i);
      case HandOff(i) => HandOffKeeps(s, i);
      case Resume(i) => ResumeKeeps(s, i);
      case Finish(i) => FinishKeeps(s, i);
      case _ => MoveKeeps(s, a);
    }
  }

  /* ---- A waiting agent can still be found ---- */

  /** As long as no case was completed, the quantum of every case is queued. */
  ghost predicate PresentFor(s: State, i: nat)
    requires i < |s.cos| && Suspended(s.cos[i]) && JobOk(s.cos[i].pc.job, |s.chans|)
  {
    var job := s.cos[i].pc.job;
    s.cos[i].hits == [] ==>
      forall k :: 0 <= k < |job.cases| ==>
        Quantum(i, k, job.kind.Select?) in Queue(s.chans[job.cases[k].chan], job.cases[k].send)
  }

  ghost predicate PresentOk(s: State)
    requires CosOk(s)
  {
    forall i :: 0 <= i < |s.cos| && Suspended(s.cos[i]) ==> CoOk(s.cos[i], |s.chans|) && PresentFor(s, i)
  }

  /** Queues only grow, and suspensions are old ones or already completed. */
  lemma PresentGrows(s: State, s': State)
    requires CosOk(s) && CosOk(s') && PresentOk(s) && |s'.cos| == |s.cos| && |s'.chans| == |s.chans|
    requires forall c, send, q :: 0 <= c < |s.chans| && q in Queue(s.chans[c], send) ==> q in Queue(s'.chans[c], send)
    requires forall i :: 0 <= i < |s.cos| && Suspended(s'.cos[i]) && s'.cos[i].hits == [] ==>
      Suspended(s.cos[i]) && s.cos[i].hits == [] && s'.cos[i].pc.job == s.cos[i].pc.job
    ensures PresentOk(s')
  {
    forall i | 0 <= i < |s'.cos| && Suspended(s'.cos[i]) ensures CoOk(s'.cos[i], |s'.chans|) && PresentFor(s', i) {
      if s'.cos[i].hits == [] { assert PresentFor(s, i); }
    }
  }

  lemma MovePresent(s: State, a: Action)
    requires Inv(s) && PresentOk(s) && Enabled(s, a) && CosOk(Step(s, a))
    requires a.Begin? || a.Skip? || a.Buffered? || a.Fail?
    ensures PresentOk(Step(s, a))
  {
    assert CoOk(s.cos[a.i], |s.chans|);
    PresentGrows(s, Step(s, a));
  }

  lemma UnlockPresent(s: State, i: nat)
    requires Inv(s) && PresentOk(s) && Enabled(s, Unlock(i)) && CosOk(Step(s, Unlock(i)))
    ensures PresentOk(Step(s, Unlock(i)))
  {
    assert CoOk(s.cos[i], |s.chans|);
    PresentGrows(s, Step(s, Unlock(i)));
  }

  lemma SuspendPresent(s: State, a: Action)
    requires Inv(s) && PresentOk(s) && Enabled(s, a) && CosOk(Step(s, a)) && (a.CoreWait? || a.HandOff? || a.Resume?)
    ensures PresentOk(Step(s, a))
  {
    assert CoOk(s.cos[a.i], |s.chans|);
    PresentGrows(s, Step(s, a));
  }

  lemma LockPresent(s: State, i: nat)
    requires Inv(s) && PresentOk(s) && Enabled(s, Lock(i)) && CosOk(LockStep(s, i))
    ensures PresentOk(LockStep(s, i))
  {
    assert CoOk(s.cos[i], |s.chans|);
    PresentGrows(s, LockStep(s, i));
  }

  lemma ReadyPresent(s: State, i: nat)
    requires Inv(s) && PresentOk(s) && Enabled(s, MakeReady(i)) && CosOk(MakeReadyStep(s, i))
    ensures PresentOk(MakeReadyStep(s, i))
  {
    TargetWaits(s, i);
    PresentGrows(s, MakeReadyStep(s, i));
  }

  /** The suspending agent is in the queue of each of its cases. */
  lemma BlockPresentOwn(s: State, i: nat, k: nat)
    requires Inv(s) && Enabled(s, Block(i)) && k < |s.cos[i].pc.job.cases|
    ensures var job := s.cos[i].pc.job;
            && job.cases[k].chan < |s.chans| == |BlockStep(s, i).chans|
            && Quantum(i, k, job.kind.Select?) in Queue(BlockStep(s, i).chans[job.cases[k].chan], job.cases[k].send)
  {
    var job := s.cos[i].pc.job;
    assert CoOk(s.cos[i], |s.chans|);
    CaseIsFirst(job, |s.chans|, k, job.cases[k].chan, job.cases[k].send);
    BlockQueue(s, i, job.cases[k].chan, job.cases[k].send);
  }

  lemma BlockPresentOther(s: State, i: nat, c: nat, send: bool, q: Quantum)
    requires Enabled(s, Block(i)) && c < |s.chans| && q in Queue(s.chans[c], send)
    ensures |BlockStep(s, i).chans| == |s.chans| && q in Queue(BlockStep(s, i).chans[c], send)
  {
    BlockQueue(s, i, c, send);
  }

  lemma BlockPresent(s: State, i: nat)
    requires Inv(s) && PresentOk(s) && Enabled(s, Block(i)) && CosOk(BlockStep(s, i))
    ensures PresentOk(BlockStep(s, i))
  {
    var s' := BlockStep(s, i);
    forall j | 0 <= j < |s'.cos| && Suspended(s'.cos[j]) ensures CoOk(s'.cos[j], |s'.chans|) && PresentFor(s', j) {
      assert CoOk(s'.cos[j], |s'.chans|);
      assert j != i ==> PresentFor(s, j);
      var job := s'.cos[j].pc.job;
      forall k | 0 <= k < |job.cases| && s'.cos[j].hits == []
        ensures Quantum(j, k, job.kind.Select?) in Queue(s'.chans[job.cases[k].chan], job.cases[k].send)
      {
        if j == i {
          BlockPresentOwn(s, i, k);
        } else {
          BlockPresentOther(s, i, job.cases[k].chan, job.cases[k].send, Quantum(j, k, job.kind.Select?));
        }
      }
    }
  }

  /** A pop changes the history of the head's owner only, and suspends nobody. */
  lemma PopOthers(s: State, i: nat, j: nat)
    requires Enabled(s, Pop(i)) && j < |s.cos|
    ensures |PopStep(s, i).cos| == |s.cos|
    ensures var (co, co', q) := (s.cos[j], PopStep(s, i).cos[j], PeerQueue(s, i)[0]);
            && (Suspended(co') ==> co'.pc == co.pc)
            && (j != q.co ==> co'.hits == co.hits)
            && (j == q.co && !(q.select && co.tag.Some?) ==> co'.hits != [])
            && (j == q.co && q.select && co.tag.Some? ==> co'.hits == co.hits)
  {}

  /** The owner of a head that loses its CAS has been completed before. */
  lemma LoserIsDone(s: State, i: nat)
    requires Inv(s) && Enabled(s, Pop(i))
    ensures var q := PeerQueue(s, i)[0]; q.select && s.cos[q.co].tag.Some? ==> s.cos[q.co].hits != []
  {
    var pc, q := s.cos[i].pc, PeerQueue(s, i)[0];
    var c := pc.job.cases[pc.i];
    assert q in Queue(s.chans[c.chan], !c.send) && QuantumOk(s, c.chan, !c.send, q);
    assert CoOk(s.cos[q.co], |s.chans|);
  }

  /** Only the head of one queue is gone, and its owner is completed now, if not before. */
  lemma PopShape(s: State, i: nat, j: nat)
    requires Inv(s) && Enabled(s, Pop(i)) && j < |s.cos| == |PopStep(s, i).cos|
    requires Suspended(PopStep(s, i).cos[j]) && PopStep(s, i).cos[j].hits == []
    ensures j != PeerQueue(s, i)[0].co && Suspended(s.cos[j])
    ensures PopStep(s, i).cos[j].hits == s.cos[j].hits && PopStep(s, i).cos[j].pc.job == s.cos[j].pc.job
  {
    PopOthers(s, i, j);
    LoserIsDone(s, i);
  }

  lemma PopQueue(s: State, i: nat, c: nat, send: bool, q: Quantum)
    requires Enabled(s, Pop(i)) && c < |s.chans| && q in Queue(s.chans[c], send) && q != PeerQueue(s, i)[0]
    ensures |PopStep(s, i).chans| == |s.chans| && q in Queue(PopStep(s, i).chans[c], send)
  {
    assert PeerQueue(s, i) == [PeerQueue(s, i)[0]] + PeerQueue(s, i)[1..];
  }

  lemma PopPresent(s: State, i: nat)
    requires Inv(s) && PresentOk(s) && Enabled(s, Pop(i)) && CosOk(PopStep(s, i))
    ensures PresentOk(PopStep(s, i))
  {
    var s' := PopStep(s, i);
    forall j | 0 <= j < |s'.cos| && Suspended(s'.cos[j]) ensures CoOk(s'.cos[j], |s'.chans|) && PresentFor(s', j) {
      assert CoOk(s'.cos[j], |s'.chans|);
      if s'.cos[j].hits == [] {
        PopShape(s, i, j);
        assert PresentFor(s, j);
        var job := s.cos[j].pc.job;
        forall k | 0 <= k < |job.cases|
          ensures Quantum(j, k, job.kind.Select?) in Queue(s'.chans[job.cases[k].chan], job.cases[k].send)
        {
          PopQueue(s, i, job.cases[k].chan, job.cases[k].send, Quantum(j, k, job.kind.Select?));
        }
      }
    }
  }

  lemma FinishPresent(s: State, i: nat)
    requires Inv(s) && PresentOk(s) && Enabled(s, Finish(i)) && CosOk(FinishStep(s, i))
    ensures PresentOk(FinishStep(s, i))
  {
    var s' := FinishStep(s, i);
    forall j | 0 <= j < |s'.cos| && Suspended(s'.cos[j]) ensures CoOk(s'.cos[j], |s'.chans|) && PresentFor(s', j) {
      assert PresentFor(s, j);
      var job := s.cos[j].pc.job;
      forall k | 0 <= k < |job.cases| && s.cos[j].hits == []
        ensures Quantum(j, k, job.kind.Select?) in Queue(s'.chans[job.cases[k].chan], job.cases[k].send)
      {
        if s.cos[i].pc.job.kind.Select? { FinishShape(s, i, job.cases[k].chan, job.cases[k].send); }
      }
    }
  }

  ghost predicate Good(s: State) { Inv(s) && PresentOk(s) }

  lemma StepKeepsGood(s: State, a: Action)
    requires Good(s) && Enabled(s, a)
    ensures Good(Step(s, a))
  {
    StepKeepsInv(s, a);
    match a {
      case Pop(i) => PopPresent(s, i);
      case Block(i) => BlockPresent(s, i);
      case MakeReady(i) => ReadyPresent(s, i);
      case Finish(i) => FinishPresent(s, i);
      case Lock(i) => LockPresent(s, i);
      case Unlock(i) => UnlockPresent(s, i);
      case CoreWait(_) => SuspendPresent(s, a);
      case HandOff(_) => SuspendPresent(s, a);
      case Resume(_) => SuspendPresent(s, a);
      case _ => MovePresent(s, a);
    }
  }

  /* ---- Whole runs ---- */

  /** Action n of a run, as every n in a run satisfies. */
  ghost predicate Moves(trace: seq<State>, actions: seq<Action>, n: nat)
    requires n < |actions| < |trace|
  {
    Enabled(trace[n], actions[n]) && trace[n + 1] == Step(trace[n], actions[n])
  }

  ghost predicate IsRun(trace: seq<State>, actions: seq<Action>) {
    |trace| == |actions| + 1 && Init(trace[0]) && forall n :: 0 <= n < |actions| ==> Moves(trace, actions, n)
  }

  lemma {:induction false} RunsAreGood(trace: seq<State>, actions: seq<Action>, n: nat)
    requires IsRun(trace, actions) && n < |trace|
    ensures Good(trace[n])
  {
    if n > 0 {
      RunsAreGood(trace, actions, n - 1);
      assert Moves(trace, actions, n - 1);
      StepKeepsGood(trace[n - 1], actions[n - 1]);
    }
  }

  /** The lock hand-off: whenever vpu_ready is called, for a channel peer, a closed channel or an
      asynchronous request, its target is in WAIT and has not been made ready before in this
      suspension, although the target announced itself while it was still running. */
  lemma ReadyFindsWaiting(trace: seq<State>, actions: seq<Action>, n: nat)
    requires IsRun(trace, actions) && n < |actions| && Moves(trace, actions, n) && actions[n].MakeReady?
    ensures var s := trace[n];
            var t := s.cos[actions[n].i].pc.target;
            && s.cos[t].status.Waiting? && s.cos[t].readies == 0
            && trace[n + 1].cos[t].status.Ready? && trace[n + 1].cos[t].readies == 1
  {
    RunsAreGood(trace, actions, n);
    TargetWaits(trace[n], actions[n].i);
  }

  /** A suspended select ends with exactly one completed case and one vpu_ready; *active is the
      channel of that case, and none of its quanta is left in any queue when they are freed. */
  lemma SelectHasOneWinner(trace: seq<State>, actions: seq<Action>, n: nat)
    requires IsRun(trace, actions) && n < |actions| && Moves(trace, actions, n) && actions[n].Finish?
    requires trace[n].cos[actions[n].i].pc.job.kind.Select?
    ensures var (i, s, s') := (actions[n].i, trace[n], trace[n + 1]);
            var (co, job) := (s.cos[i], s.cos[i].pc.job);
            && |co.hits| == 1 && co.hits[0] < |job.cases| && co.readies == 1
            && s'.cos[i].active == Some(job.cases[co.hits[0]].chan)
            && NoQuanta(s', i)
  {
    RunsAreGood(trace, actions, n);
    assert CoOk(trace[n].cos[actions[n].i], |trace[n].chans|);
    FinishKeeps(trace[n], actions[n].i);
  }

  /** In every state: a queued quantum belongs to an agent between enqueueing and extraction, so no
      freed quantum is ever reachable from a queue. */
  lemma QuantaAreLive(trace: seq<State>, actions: seq<Action>, n: nat, c: nat, send: bool, q: Quantum)
    requires IsRun(trace, actions) && n < |trace| && c < |trace[n].chans| && q in Queue(trace[n].chans[c], send)
    ensures q.co < |trace[n].cos| && Suspended(trace[n].cos[q.co])
    ensures var job := trace[n].cos[q.co].pc.job; q.idx < |job.cases| && job.cases[q.idx] == Case(c, send)
  {
    RunsAreGood(trace, actions, n);
    assert QuantumOk(trace[n], c, send, q);
  }

  /** In every state: a waiting agent that nobody has completed is in the queue of each of its
      cases, so a peer on any of them will find it. */
  lemma WaitersAreQueued(trace: seq<State>, actions: seq<Action>, n: nat, i: nat, k: nat)
    requires IsRun(trace, actions) && n < |trace| && i < |trace[n].cos|
    requires var co := trace[n].cos[i]; co.pc.Parked? && co.hits == [] && k < |co.pc.job.cases|
    ensures var job := trace[n].cos[i].pc.job;
            job.cases[k].chan < |trace[n].chans| &&
            Quantum(i, k, job.kind.Select?) in Queue(trace[n].chans[job.cases[k].chan], job.cases[k].send)
  {
    RunsAreGood(trace, actions, n);
    assert CoOk(trace[n].cos[i], |trace[n].chans|) && PresentFor(trace[n], i);
  }

  /* ---- Every case is tried before an agent blocks or gives up ---- */

  /** How many cases an agent has tried in vain. */
  function Tried(co: Co): nat {
    match co.pc
    case Try(_, i) => i
    case Owe(_, i, _) => i
    case Release(job, _) => if job.kind.Close? then |job.cases| else 0
    case _ => 0
  }

  /** Nobody waits on the other side of case k of agent i. */
  predicate NobodyThere(s: State, i: nat, k: nat)
    requires i < |s.cos| && !s.cos[i].pc.Idle? && k < |s.cos[i].pc.job.cases|
  {
    var c := s.cos[i].pc.job.cases[k];
    c.chan < |s.chans| && Queue(s.chans[c.chan], !c.send) == []
  }

  ghost predicate TriedFor(s: State, i: nat)
    requires i < |s.cos|
  {
    var co := s.cos[i];
    Trying(co) ==> forall k :: 0 <= k < Tried(co) && k < |co.pc.job.cases| ==> NobodyThere(s, i, k)
  }

  ghost predicate TriedOk(s: State) {
    forall i :: 0 <= i < |s.cos| ==> TriedFor(s, i)
  }

  /** Under somebody's lock, the queues of a channel are left alone by all others. */
  predicate Untouched(s: State, s': State, c: nat, send: bool) {
    |s'.chans| == |s.chans| && c < |s.chans| && Queue(s'.chans[c], send) == Queue(s.chans[c], send)
  }

  lemma PopUntouched(s: State, i: nat, c: nat, send: bool)
    requires Inv(s) && Enabled(s, Pop(i)) && c < |s.chans| && c !in Held(s.cos[i])
    ensures Untouched(s, PopStep(s, i), c, send)
  {
    assert CoOk(s.cos[i], |s.chans|);
    assert c != s.cos[i].pc.job.cases[s.cos[i].pc.i].chan;
  }

  lemma BlockUntouched(s: State, i: nat, c: nat, send: bool)
    requires Inv(s) && Enabled(s, Block(i)) && c < |s.chans| && c !in Held(s.cos[i])
    ensures Untouched(s, BlockStep(s, i), c, send)
  {
    assert CoOk(s.cos[i], |s.chans|);
    BlockQueue(s, i, c, send);
  }

  lemma FinishUntouched(s: State, i: nat, c: nat, send: bool)
    requires Inv(s) && Enabled(s, Finish(i)) && c < |s.chans| && c !in Held(s.cos[i])
    ensures Untouched(s, FinishStep(s, i), c, send)
  {
    assert CoOk(s.cos[i], |s.chans|);
    if s.cos[i].pc.job.kind.Select? { FinishShape(s, i, c, send); }
  }

  lemma MoveUntouched(s: State, a: Action, c: nat, send: bool)
    requires Enabled(s, a) && !a.Pop? && !a.Block? && !a.Finish? && c < |s.chans|
    ensures Untouched(s, Step(s, a), c, send)
  {}

  lemma LockedQueues(s: State, a: Action, u: nat, c: nat, send: bool)
    requires Inv(s) && Enabled(s, a) && a.i != u && u < |s.cos| && c < |s.chans| && c in Held(s.cos[u])
    ensures Untouched(s, Step(s, a), c, send)
  {
    assert s.chans[c].lock == Some(u);
    assert c !in Held(s.cos[a.i]);
    match a
    case Pop(i) => PopUntouched(s, i, c, send);
    case Block(i) => BlockUntouched(s, i, c, send);
    case Finish(i) => FinishUntouched(s, i, c, send);
    case _ => MoveUntouched(s, a, c, send);
  }

  /** The agent is trying its cases and holds the locks of all of them. */
  predicate Trying(co: Co) {
    (co.pc.Try? || (co.pc.Owe? && !co.pc.job.kind.Work?) || (co.pc.Release? && co.pc.job.kind.Close?)) &&
    !co.pc.job.kind.Submit?
  }

  lemma TrierHolds(s: State, u: nat, k: nat)
    requires Inv(s) && u < |s.cos| && Trying(s.cos[u]) && k < |s.cos[u].pc.job.cases|
    ensures s.cos[u].pc.job.cases[k].chan < |s.chans| && s.cos[u].pc.job.cases[k].chan in Held(s.cos[u])
  {
    assert CoOk(s.cos[u], |s.chans|);
  }

  lemma OtherStillTried(s: State, a: Action, u: nat)
    requires Inv(s) && Enabled(s, a) && a.i != u && u < |s.cos| && TriedFor(s, u) && |Step(s, a).cos| == |s.cos|
    requires Step(s, a).cos[u].pc == s.cos[u].pc
    ensures TriedFor(Step(s, a), u)
  {
    var co := s.cos[u];
    if Trying(co) {
      forall k | 0 <= k < Tried(co) && k < |co.pc.job.cases| ensures NobodyThere(Step(s, a), u, k) {
        TrierHolds(s, u, k);
        assert NobodyThere(s, u, k);
        LockedQueues(s, a, u, co.pc.job.cases[k].chan, !co.pc.job.cases[k].send);
      }
    }
  }

  lemma PcsStay(s: State, a: Action, u: nat)
    requires Enabled(s, a) && u < |s.cos| && a.i != u
    ensures |Step(s, a).cos| == |s.cos| && Step(s, a).cos[u].pc == s.cos[u].pc
  {}

  /** What the agent itself has tried stays tried; popping only shortens the queue of the case at hand. */
  lemma SkipTried(s: State, i: nat)
    requires Inv(s) && Enabled(s, Skip(i)) && TriedFor(s, i) && !s.cos[i].pc.job.kind.Submit?
    ensures TriedFor(Step(s, Skip(i)), i)
  {
    var s' := Step(s, Skip(i));
    var co := s.cos[i];
    forall k | 0 <= k < Tried(s'.cos[i]) && k < |co.pc.job.cases| ensures NobodyThere(s', i, k) {
      if k < Tried(co) { assert NobodyThere(s, i, k); } else { assert PeerQueue(s, i) == []; }
    }
  }

  lemma PopShrinks(s: State, i: nat, c: nat, send: bool)
    requires Enabled(s, Pop(i)) && c < |s.chans| && Queue(s.chans[c], send) == []
    ensures Untouched(s, PopStep(s, i), c, send)
  {}

  lemma PopTried(s: State, i: nat)
    requires Inv(s) && Enabled(s, Pop(i)) && TriedFor(s, i)
    ensures TriedFor(PopStep(s, i), i)
  {
    var (co, s') := (s.cos[i], PopStep(s, i));
    PopOwn(s, i);
    forall k | 0 <= k < Tried(co) && k < |co.pc.job.cases| ensures NobodyThere(s', i, k) {
      assert NobodyThere(s, i, k);
      PopShrinks(s, i, co.pc.job.cases[k].chan, !co.pc.job.cases[k].send);
    }
  }

  lemma PopOwn(s: State, i: nat)
    requires Inv(s) && Enabled(s, Pop(i))
    ensures var (pc, pc') := (s.cos[i].pc, PopStep(s, i).cos[i].pc);
            |PopStep(s, i).cos| == |s.cos| && pc.Try? && (pc'.Try? || pc'.Owe?) && pc'.job == pc.job && pc'.i == pc.i
  {}

  lemma ReadyTried(s: State, i: nat)
    requires Inv(s) && Enabled(s, MakeReady(i)) && TriedFor(s, i)
    ensures TriedFor(MakeReadyStep(s, i), i)
  {
    var (co, s') := (s.cos[i], MakeReadyStep(s, i));
    TargetWaits(s, i);
    if s'.cos[i].pc.Try? {
      forall k | 0 <= k < Tried(co) && k < |co.pc.job.cases| ensures NobodyThere(s', i, k) {
        assert NobodyThere(s, i, k);
      }
    }
  }

  lemma OwnTried(s: State, a: Action)
    requires Inv(s) && Enabled(s, a) && TriedFor(s, a.i) && |Step(s, a).cos| == |s.cos|
    ensures TriedFor(Step(s, a), a.i)
  {
    match a
    case Skip(i) => if !s.cos[i].pc.job.kind.Submit? { SkipTried(s, i); }
    case Pop(i) => PopTried(s, i);
    case MakeReady(i) => ReadyTried(s, i);
    case Fail(i) => FailTried(s, i);
    case Finish(i) => FinishTried(s, i);
    case _ => RestTried(s, a);
  }

  /** A close ends with both queues empty. */
  lemma FailTried(s: State, i: nat)
    requires Inv(s) && Enabled(s, Fail(i)) && TriedFor(s, i)
    ensures TriedFor(Step(s, Fail(i)), i)
  {
    var (co, s') := (s.cos[i], Step(s, Fail(i)));
    if co.pc.job.kind.Close? {
      forall k | 0 <= k < |co.pc.job.cases| ensures NobodyThere(s', i, k) { assert NobodyThere(s, i, k); }
    }
  }

  lemma FinishTried(s: State, i: nat)
    requires Inv(s) && Enabled(s, Finish(i))
    ensures |FinishStep(s, i).cos| == |s.cos| && TriedFor(FinishStep(s, i), i)
  {
    assert CoOk(s.cos[i], |s.chans|);
  }

  lemma RestTried(s: State, a: Action)
    requires Inv(s) && Enabled(s, a) && !a.Skip? && !a.Pop? && !a.MakeReady? && !a.Fail? && !a.Finish?
    requires |Step(s, a).cos| == |s.cos|
    ensures TriedFor(Step(s, a), a.i)
  {
    assert CoOk(s.cos[a.i], |s.chans|);
    assert Tried(Step(s, a).cos[a.i]) == 0;
  }

  lemma StepKeepsTried(s: State, a: Action)
    requires Inv(s) && TriedOk(s) && Enabled(s, a)
    ensures TriedOk(Step(s, a))
  {
    CosStay(s, a);
    forall u | 0 <= u < |Step(s, a).cos| ensures TriedFor(Step(s, a), u) {
      if u == a.i {
        OwnTried(s, a);
      } else {
        PcsStay(s, a, u);
        OtherStillTried(s, a, u);
      }
    }
  }

  lemma CosStay(s: State, a: Action)
    requires Enabled(s, a)
    ensures |Step(s, a).cos| == |s.cos|
  {}

  lemma {:induction false} RunsKeepTried(trace: seq<State>, actions: seq<Action>, n: nat)
    requires IsRun(trace, actions) && n < |trace|
    ensures TriedOk(trace[n])
  {
    if n > 0 {
      RunsKeepTried(trace, actions, n - 1);
      RunsAreGood(trace, actions, n - 1);
      assert Moves(trace, actions, n - 1);
      StepKeepsTried(trace[n - 1], actions[n - 1]);
    }
  }

  /** When an agent enqueues itself or gives up, nobody waits on the other side of any of its cases. (A
      submitter only enqueues.) */
  lemma EveryCaseWasTried(trace: seq<State>, actions: seq<Action>, n: nat, k: nat)
    requires IsRun(trace, actions) && n < |actions| && Moves(trace, actions, n) && (actions[n].Block? || actions[n].Fail?)
    requires var job := trace[n].cos[actions[n].i].pc.job; !job.kind.Submit? && k < |job.cases|
    ensures NobodyThere(trace[n], actions[n].i, k)
  {
    RunsKeepTried(trace, actions, n);
    RunsAreGood(trace, actions, n);
    assert TriedFor(trace[n], actions[n].i);
  }

  /** While a close releases the lock, nobody is left in either queue of its channel. */
  lemma CloseEmptiesQueues(trace: seq<State>, actions: seq<Action>, n: nat, i: nat, k: nat)
    requires IsRun(trace, actions) && n < |trace| && i < |trace[n].cos|
    requires var pc := trace[n].cos[i].pc; pc.Release? && pc.job.kind.Close? && k < |pc.job.cases|
    ensures NobodyThere(trace[n], i, k)
  {
    RunsKeepTried(trace, actions, n);
    assert TriedFor(trace[n], i);
  }

  /* ---- One case takes effect per call ---- */

  /** What a plain operation or a select has achieved, by itself or through a peer, at each point. */
  predicate EffectOk(co: Co) {
    match co.pc
    case Idle => true
    case Acquire(_, _) => co.served == [] && co.hits == [] && co.active.None?
    case Try(job, _) => !job.kind.Close? ==> co.served == [] && co.hits == [] && co.active.None?
    case Owe(job, i, _) =>
      !job.kind.Close? ==> co.served == [i] && co.hits == [] && i < |job.cases| && Reported(co, job, i)
    case Release(job, _) =>
      !job.kind.Close? ==>
        || (co.served == [] && co.hits == [] && co.active.None?)
        || (|co.served| == 1 && co.hits == [] && co.served[0] < |job.cases| && Reported(co, job, co.served[0]))
        || (co.served == [] && |co.hits| == 1 && co.hits[0] < |job.cases| && Reported(co, job, co.hits[0]))
    case _ => co.served == [] && co.active.None?
  }

  predicate Reported(co: Co, job: Job, k: nat)
    requires k < |job.cases|
  {
    job.kind.Select? ==> co.active == Some(job.cases[k].chan)
  }

  lemma LockEffect(s: State, a: Action)
    requires Inv(s) && Enabled(s, a) && EffectOk(s.cos[a.i]) && (a.Begin? || a.Lock? || a.Unlock?)
    ensures |Step(s, a).cos| == |s.cos| && EffectOk(Step(s, a).cos[a.i])
  {
    assert CoOk(s.cos[a.i], |s.chans|);
  }

  lemma TryEffect(s: State, a: Action)
    requires Inv(s) && Enabled(s, a) && EffectOk(s.cos[a.i]) && (a.Skip? || a.Buffered? || a.Block? || a.Fail?)
    ensures |Step(s, a).cos| == |s.cos| && EffectOk(Step(s, a).cos[a.i])
  {
    assert CoOk(s.cos[a.i], |s.chans|);
  }

  lemma SleepEffect(s: State, a: Action)
    requires Inv(s) && Enabled(s, a) && EffectOk(s.cos[a.i]) && (a.CoreWait? || a.HandOff? || a.Resume?)
    ensures |Step(s, a).cos| == |s.cos| && EffectOk(Step(s, a).cos[a.i])
  {
    assert CoOk(s.cos[a.i], |s.chans|);
  }

  lemma FinishEffect(s: State, i: nat)
    requires Inv(s) && Enabled(s, Finish(i)) && EffectOk(s.cos[i])
    ensures |FinishStep(s, i).cos| == |s.cos| && EffectOk(FinishStep(s, i).cos[i])
  {
    assert CoOk(s.cos[i], |s.chans|);
  }

  lemma PopEffect(s: State, i: nat)
    requires Inv(s) && Enabled(s, Pop(i)) && EffectOk(s.cos[i])
    ensures |PopStep(s, i).cos| == |s.cos| && EffectOk(PopStep(s, i).cos[i])
  {
    if Wins(s, i) { WinnerWaits(s, i); }
  }

  lemma ReadyEffect(s: State, i: nat)
    requires Inv(s) && Enabled(s, MakeReady(i)) && EffectOk(s.cos[i])
    ensures |MakeReadyStep(s, i).cos| == |s.cos| && EffectOk(MakeReadyStep(s, i).cos[i])
  {
    TargetWaits(s, i);
  }

  lemma OwnEffect(s: State, a: Action)
    requires Inv(s) && Enabled(s, a) && EffectOk(s.cos[a.i])
    ensures |Step(s, a).cos| == |s.cos| && EffectOk(Step(s, a).cos[a.i])
  {
    if a.Begin? || a.Lock? || a.Unlock? { LockEffect(s, a); }
    else if a.Skip? || a.Buffered? || a.Block? || a.Fail? { TryEffect(s, a); }
    else if a.CoreWait? || a.HandOff? || a.Resume? { SleepEffect(s, a); }
    else if a.Finish? { FinishEffect(s, a.i); }
    else if a.Pop? { PopEffect(s, a.i); }
    else { ReadyEffect(s, a.i); }
  }

  lemma PopOther(s: State, i: nat, u: nat)
    requires Inv(s) && Enabled(s, Pop(i)) && u < |s.cos| && u != i && EffectOk(s.cos[u])
    ensures |PopStep(s, i).cos| == |s.cos| && EffectOk(PopStep(s, i).cos[u])
  {
    if Wins(s, i) { WinnerWaits(s, i); }
  }

  lemma ReadyOther(s: State, i: nat, u: nat)
    requires Inv(s) && Enabled(s, MakeReady(i)) && u < |s.cos| && u != i && EffectOk(s.cos[u])
    ensures |MakeReadyStep(s, i).cos| == |s.cos| && EffectOk(MakeReadyStep(s, i).cos[u])
  {
    TargetWaits(s, i);
  }

  lemma RestOther(s: State, a: Action, u: nat)
    requires Enabled(s, a) && u < |s.cos| && u != a.i && !a.Pop? && !a.MakeReady?
    ensures |Step(s, a).cos| == |s.cos| && Step(s, a).cos[u] == s.cos[u]
  {}

  lemma StepEffect(s: State, a: Action, s': State, u: nat)
    requires Inv(s) && Enabled(s, a) && s' == Step(s, a) && u < |s.cos| && EffectOk(s.cos[u])
    ensures |s'.cos| == |s.cos| && EffectOk(s'.cos[u])
  {
    if u == a.i { OwnEffect(s, a); }
    else if a.Pop? { PopOther(s, a.i, u); }
    else if a.MakeReady? { ReadyOther(s, a.i, u); }
    else { RestOther(s, a, u); }
  }

  lemma {:induction false} RunsKeepEffect(trace: seq<State>, actions: seq<Action>, n: nat, u: nat)
    requires IsRun(trace, actions) && n < |trace| && u < |trace[n].cos|
    ensures EffectOk(trace[n].cos[u])
  {
    if n > 0 {
      RunsAreGood(trace, actions, n - 1);
      assert Moves(trace, actions, n - 1);
      CosStay(trace[n - 1], actions[n - 1]);
      RunsKeepEffect(trace, actions, n - 1, u);
      StepEffect(trace[n - 1], actions[n - 1], trace[n], u);
    }
  }

  /** When a plain operation or a select returns, at most one of its cases has taken effect: one that it
      completed itself or one that a peer completed while it slept; `*active` is the channel of that case, and
      nothing if there was none. */
  lemma OneCasePerCall(trace: seq<State>, actions: seq<Action>, n: nat, u: nat)
    requires IsRun(trace, actions) && n < |trace| && u < |trace[n].cos|
    requires var pc := trace[n].cos[u].pc; pc.Release? && (pc.job.kind.Plain? || pc.job.kind.Select?)
    ensures var co := trace[n].cos[u];
            var (job, done) := (co.pc.job, co.served + co.hits);
            && |done| <= 1 && (done != [] ==> done[0] < |job.cases|)
            && (job.kind.Select? ==> co.active == if done == [] then None else Some(job.cases[done[0]].chan))
  {
    RunsKeepEffect(trace, actions, n, u);
  }

  /* ---- Only a call that gave up returns with nothing ---- */

  /** On its way out, or out, and no case has taken effect. */
  predicate Empty(co: Co) {
    (co.pc.Release? || co.pc.Idle?) && co.served == [] && co.hits == [] && co.active.None?
  }

  lemma PopSparesAwake(s: State, i: nat, u: nat)
    requires Inv(s) && Enabled(s, Pop(i)) && u < |s.cos| && u != i && !Suspended(s.cos[u])
    ensures |PopStep(s, i).cos| == |s.cos| && PopStep(s, i).cos[u] == s.cos[u]
  {
    if Wins(s, i) { WinnerWaits(s, i); }
  }

  lemma ReadySparesAwake(s: State, i: nat, u: nat)
    requires Inv(s) && Enabled(s, MakeReady(i)) && u < |s.cos| && u != i && !Suspended(s.cos[u])
    ensures |MakeReadyStep(s, i).cos| == |s.cos| && MakeReadyStep(s, i).cos[u] == s.cos[u]
  {
    TargetWaits(s, i);
  }

  /** Other agents do nothing to one that is not suspended. */
  lemma AwakeIsLeftAlone(s: State, a: Action, u: nat)
    requires Inv(s) && Enabled(s, a) && u < |s.cos| && u != a.i && !Suspended(s.cos[u])
    ensures |Step(s, a).cos| == |s.cos| && Step(s, a).cos[u] == s.cos[u]
  {
    if a.Pop? { PopSparesAwake(s, a.i, u); }
    else if a.MakeReady? { ReadySparesAwake(s, a.i, u); }
    else { RestOther(s, a, u); }
  }

  /** Nor do they make a suspended agent leave. */
  lemma AsleepStays(s: State, a: Action, u: nat)
    requires Inv(s) && Enabled(s, a) && u < |s.cos| && u != a.i && Suspended(s.cos[u])
    ensures |Step(s, a).cos| == |s.cos| && Suspended(Step(s, a).cos[u])
  {
    if !a.Pop? && !a.MakeReady? { RestOther(s, a, u); }
  }

  lemma PeerServed(s: State, i: nat)
    requires Inv(s) && Enabled(s, MakeReady(i)) && EffectOk(s.cos[i]) && !s.cos[i].pc.job.kind.Close?
    ensures |MakeReadyStep(s, i).cos| == |s.cos| && !Empty(MakeReadyStep(s, i).cos[i])
  {
    TargetWaits(s, i);
  }

  lemma NoReleaseYet(s: State, a: Action)
    requires Enabled(s, a) && (a.Begin? || a.Lock? || a.Pop? || a.Skip? || a.Block? || a.CoreWait? || a.HandOff? || a.Resume?)
    ensures |Step(s, a).cos| == |s.cos| && !Step(s, a).cos[a.i].pc.Release?
  {}

  /** Its own last step was to give up or to release a lock. */
  lemma OwnBack(s: State, a: Action)
    requires Inv(s) && Enabled(s, a) && EffectOk(s.cos[a.i]) && |Step(s, a).cos| == |s.cos|
    requires var co' := Step(s, a).cos[a.i]; co'.pc.Release? && !co'.pc.job.kind.Close? && Empty(co')
    ensures s.cos[a.i].pc.job == Step(s, a).cos[a.i].pc.job
    ensures a.Fail? || (a.Unlock? && s.cos[a.i].pc.Release? && Empty(s.cos[a.i]))
  {
    assert CoOk(s.cos[a.i], |s.chans|);
    if a.MakeReady? { PeerServed(s, a.i); }
    else if !a.Fail? && !a.Unlock? && !a.Buffered? && !a.Finish? { NoReleaseYet(s, a); }
  }

  /** Whoever leaves with nothing has given up before, in the same call. Then every case had been tried, as
      EveryCaseWasTried says. */
  lemma {:induction false} EmptyHandedGaveUp(trace: seq<State>, actions: seq<Action>, n: nat, u: nat) returns (m: nat)
    requires IsRun(trace, actions) && n < |trace| && u < |trace[n].cos|
    requires var co := trace[n].cos[u]; co.pc.Release? && !co.pc.job.kind.Close? && Empty(co)
    ensures m < n && actions[m] == Fail(u) && u < |trace[m].cos|
    ensures trace[m].cos[u].pc.Try? && trace[m].cos[u].pc.job == trace[n].cos[u].pc.job
  {
    var (s, a) := (trace[n - 1], actions[n - 1]);
    assert Moves(trace, actions, n - 1);
    RunsAreGood(trace, actions, n - 1);
    CosStay(s, a);
    if u == a.i {
      RunsKeepEffect(trace, actions, n - 1, u);
      OwnBack(s, a);
      m := n - 1;
    } else if Suspended(s.cos[u]) {
      AsleepStays(s, a, u);
    } else {
      AwakeIsLeftAlone(s, a, u);
    }
    if !(u == a.i && a.Fail?) { m := EmptyHandedGaveUp(trace, actions, n - 1, u); }
  }

  lemma EmptyStays(s: State, a: Action, u: nat)
    requires Inv(s) && Enabled(s, a) && u < |s.cos| && Empty(s.cos[u]) && !(a.Begin? && a.i == u)
    ensures |Step(s, a).cos| == |s.cos| && Empty(Step(s, a).cos[u])
  {
    if u != a.i { AwakeIsLeftAlone(s, a, u); }
  }

  lemma FailIsEmpty(s: State, u: nat)
    requires Enabled(s, Fail(u)) && EffectOk(s.cos[u]) && !s.cos[u].pc.job.kind.Close?
    ensures |Step(s, Fail(u)).cos| == |s.cos| && Empty(Step(s, Fail(u)).cos[u])
  {}

  /** A call that gives up only releases its locks from then on, until the agent's next call. */
  lemma {:induction false} GivingUpIsFinal(trace: seq<State>, actions: seq<Action>, m: nat, n: nat, u: nat)
    requires IsRun(trace, actions) && m < n < |trace| && Moves(trace, actions, m)
    requires actions[m] == Fail(u) && !trace[m].cos[u].pc.job.kind.Close?
    requires forall k :: m < k < n ==> !(actions[k].Begin? && actions[k].i == u)
    ensures u < |trace[n].cos| && Empty(trace[n].cos[u])
  {
    RunsAreGood(trace, actions, n - 1);
    assert Moves(trace, actions, n - 1);
    if n == m + 1 {
      RunsKeepEffect(trace, actions, m, u);
      FailIsEmpty(trace[m], u);
    } else {
      GivingUpIsFinal(trace, actions, m, n - 1, u);
      EmptyStays(trace[n - 1], actions[n - 1], u);
    }
  }

  /* ---- A submitter does not take the mutex again ---- */

  predicate OffMutex(co: Co) { (co.pc.Reacquire? || co.pc.Finishing?) ==> !co.pc.job.kind.Submit? }

  lemma OwnOffMutex(s: State, a: Action)
    requires Enabled(s, a) && OffMutex(s.cos[a.i]) && !a.Pop? && !a.MakeReady?
    ensures |Step(s, a).cos| == |s.cos| && OffMutex(Step(s, a).cos[a.i])
  {}

  lemma PopOffMutex(s: State, i: nat, u: nat)
    requires Enabled(s, Pop(i)) && u < |s.cos| && OffMutex(s.cos[u])
    ensures |PopStep(s, i).cos| == |s.cos| && OffMutex(PopStep(s, i).cos[u])
  {}

  lemma ReadyOffMutex(s: State, i: nat, u: nat)
    requires Enabled(s, MakeReady(i)) && u < |s.cos| && OffMutex(s.cos[u])
    ensures |MakeReadyStep(s, i).cos| == |s.cos| && OffMutex(MakeReadyStep(s, i).cos[u])
  {}

  lemma OffMutexStep(s: State, a: Action, s': State, u: nat)
    requires Enabled(s, a) && s' == Step(s, a) && u < |s.cos| && OffMutex(s.cos[u])
    ensures |s'.cos| == |s.cos| && OffMutex(s'.cos[u])
  {
    if a.Pop? { PopOffMutex(s, a.i, u); }
    else if a.MakeReady? { ReadyOffMutex(s, a.i, u); }
    else if u == a.i { OwnOffMutex(s, a); }
    else { RestOther(s, a, u); }
  }

  /** A submitter that is resumed returns at once: in no state of a run is it after the mutex again. */
  lemma {:induction false} SubmitterLeavesMutex(trace: seq<State>, actions: seq<Action>, n: nat, u: nat)
    requires IsRun(trace, actions) && n < |trace| && u < |trace[n].cos|
    ensures OffMutex(trace[n].cos[u])
  {
    if n > 0 {
      assert Moves(trace, actions, n - 1);
      CosStay(trace[n - 1], actions[n - 1]);
      SubmitterLeavesMutex(trace, actions, n - 1, u);
      OffMutexStep(trace[n - 1], actions[n - 1], trace[n], u);
    }
  }

  /* ---- Deadlock freedom of the channel locks ---- */

  /** A waiter wants a lock above all those it holds. */
  lemma WantsHigher(co: Co, h: nat, n: nat)
    requires CoOk(co, n) && co.rel == 0 && Wanted(co).Some? && h in Held(co)
    ensures h < Wanted(co).value
  {
    var locks, k := co.pc.job.locks, co.pc.k;
    var a :| 0 <= a < |locks[..k]| && locks[..k][a] == h;
    assert locks[a] < locks[k];
  }

  /** Agent u waits for a lock that is held by v, or for v by core_wait. */
  predicate WaitsFor(s: State, u: nat, v: nat) {
    u < |s.cos| && v < |s.cos| && Wanted(s.cos[u]).Some? && Wanted(s.cos[u]).value < |s.chans| &&
    s.chans[Wanted(s.cos[u]).value].lock == Some(v)
  }

  /** An agent that holds locks and does not wait for one can take its next step. */
  lemma HolderMoves(s: State, u: nat) returns (a: Action)
    requires Inv(s) && u < |s.cos| && (s.cos[u].rel > 0 || (Wanted(s.cos[u]).None? && Held(s.cos[u]) != []))
    ensures Enabled(s, a) && a.i == u && !a.Begin?
  {
    var co := s.cos[u];
    assert CoOk(co, |s.chans|);
    if co.rel > 0 {
      a := HandOff(u);
    } else {
      match co.pc {
        case Try(job, i) => a := TryMoves(s, u);
        case Owe(job, i, t) => a := MakeReady(u);
        case Release(job, k) => a := Unlock(u);
        case Enqueued(job) => a := CoreWait(u);
        case Finishing(job) => a := Finish(u);
      }
    }
  }

  lemma TryMoves(s: State, u: nat) returns (a: Action)
    requires Inv(s) && u < |s.cos| && s.cos[u].pc.Try?
    ensures Enabled(s, a) && a.i == u && !a.Begin?
  {
    var pc := s.cos[u].pc;
    assert CoOk(s.cos[u], |s.chans|);
    if pc.i == |pc.job.cases| {
      a := if pc.job.block then Block(u) else Fail(u);
    } else if PeerQueue(s, u) == [] || pc.job.kind.Submit? {
      a := Skip(u);
    } else {
      var c := pc.job.cases[pc.i];
      assert PeerQueue(s, u)[0] in Queue(s.chans[c.chan], !c.send);
      assert QuantumOk(s, c.chan, !c.send, PeerQueue(s, u)[0]);
      a := Pop(u);
    }
  }

  /** How far the chain of waits from an agent can still climb. */
  function Climb(s: State, u: nat): int
    requires u < |s.cos|
  {
    var co := s.cos[u];
    if co.rel == 0 && Wanted(co).Some? then |s.chans| - Wanted(co).value else 0
  }

  /** Following the waits from any agent leads to one that can move. */
  lemma {:induction false} WaitsEnd(s: State, u: nat) returns (path: seq<nat>, a: Action)
    requires Inv(s) && u < |s.cos| && (Wanted(s.cos[u]).Some? || Held(s.cos[u]) != [])
    ensures path != [] && path[0] == u && Enabled(s, a) && a.i == path[|path| - 1] && !a.Begin?
    ensures forall k :: 0 <= k < |path| - 1 ==> WaitsFor(s, path[k], path[k + 1])
    decreases Climb(s, u)
  {
    var co := s.cos[u];
    assert CoOk(co, |s.chans|);
    if co.rel > 0 || Wanted(co).None? {
      a := HolderMoves(s, u);
      path := [u];
    } else {
      var c := Wanted(co).value;
      if s.chans[c].lock.None? {
        path, a := [u], Lock(u);
      } else {
        var v := s.chans[c].lock.value;
        assert c in Held(s.cos[v]) && CoOk(s.cos[v], |s.chans|);
        if s.cos[v].rel == 0 && Wanted(s.cos[v]).Some? { WantsHigher(s.cos[v], c, |s.chans|); }
        var rest;
        rest, a := WaitsEnd(s, v);
        path := [u] + rest;
      }
    }
  }

  /** In every reachable state, whoever holds or wants a channel lock is at the start of a chain of
      waits that ends with somebody who can move: no group of selectors, senders, receivers, closers
      and pool threads is blocked for good on channel locks. */
  lemma LocksNeverDeadlock(trace: seq<State>, actions: seq<Action>, n: nat, u: nat) returns (path: seq<nat>, a: Action)
    requires IsRun(trace, actions) && n < |trace| && u < |trace[n].cos|
    requires Wanted(trace[n].cos[u]).Some? || Held(trace[n].cos[u]) != []
    ensures path != [] && path[0] == u && Enabled(trace[n], a) && a.i == path[|path| - 1] && !a.Begin?
    ensures forall k :: 0 <= k < |path| - 1 ==> WaitsFor(trace[n], path[k], path[k + 1])
  {
    RunsAreGood(trace, actions, n);
    path, a := WaitsEnd(trace[n], u);
  }

  /** The wanted locks ascend along a chain of waits without hand-offs. */
  lemma {:induction false} WaitsClimb(s: State, path: seq<nat>, k: nat)
    requires Inv(s) && k < |path| - 1
    requires forall j :: 0 <= j < |path| - 1 ==> WaitsFor(s, path[j], path[j + 1])
    requires forall j :: 0 <= j < |path| ==> path[j] < |s.cos| && s.cos[path[j]].rel == 0 && Wanted(s.cos[path[j]]).Some?
    ensures Wanted(s.cos[path[0]]).value < Wanted(s.cos[path[k + 1]]).value
  {
    if k > 0 { WaitsClimb(s, path, k - 1); }
    var (c, v) := (Wanted(s.cos[path[k]]).value, path[k + 1]);
    assert s.chans[c].lock == Some(v);
    assert c in Held(s.cos[v]) && CoOk(s.cos[v], |s.chans|);
    WantsHigher(s.cos[v], c, |s.chans|);
  }

  /** A ring of waits exists only while core_wait is still releasing locks for one of its members: that
      member's next step breaks it. */
  lemma WaitCyclesAreHandOffs(trace: seq<State>, actions: seq<Action>, n: nat, ring: seq<nat>)
    requires IsRun(trace, actions) && n < |trace| && |ring| > 1 && ring[0] == ring[|ring| - 1]
    requires forall k :: 0 <= k < |ring| - 1 ==> WaitsFor(trace[n], ring[k], ring[k + 1])
    ensures exists k :: 0 <= k < |ring| && Enabled(trace[n], HandOff(ring[k]))
  {
    RunsAreGood(trace, actions, n);
    var s := trace[n];
    forall k | 0 <= k < |ring| ensures ring[k] < |s.cos| && CoOk(s.cos[ring[k]], |s.chans|) && Wanted(s.cos[ring[k]]).Some? {
      assert k < |ring| - 1 ==> WaitsFor(s, ring[k], ring[k + 1]);
      assert WaitsFor(s, ring[0], ring[1]);
    }
    if k :| 0 <= k < |ring| && s.cos[ring[k]].rel > 0 {
      assert Enabled(s, HandOff(ring[k]));
    } else {
      WaitsClimb(s, ring, |ring| - 2);
    }
  }
}
