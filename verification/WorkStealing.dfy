/** The per-VPU run queues of src/vpu.c for one priority level: rings of 512 slots with
    wrapping 32-bit indices, one owner each and any number of thieves, and the shared global
    queue they spill to and refill from.

    One action is one atomic access: a read of a head or tail, a read or write of one slot, a
    CAS, or the section under the global queue's lock. */
module WorkStealing {
  import opened Common

  const SLOTS: nat := 512                // TSC_TASK_NUM_PERPRIO
  const HALF: nat := 256
  const WORD: nat := 0x1_0000_0000       // uint32_t

  type Task = int

  function Add32(a: nat, b: nat): nat { (a + b) % WORD }

  function Sub32(a: nat, b: nat): nat { (a - b) % WORD }

  /** `head`, `tail` and `slots` are the fields of p_task_que.  `claims` and `puts` are history:
      how far the two indices have moved in all, without wrapping.  No branch of the program
      reads them. */
  datatype Ring = Ring(head: nat, tail: nat, slots: seq<Task>, claims: nat, puts: nat)

  /** What a __runqput returns to: its caller, or the refill loop of core_elect, which holds the
      global lock, has `left` tasks still to fetch and a candidate already chosen. */
  datatype Context = Plain | Refilling(left: nat, cand: Task)

  /** Program position of a VPU.  `h` is a head value read earlier and `seen` the history count
      at that moment; `temp` is the local array of copied slots. */
  datatype Pc =
    | Idle
    | GetLook(elect: bool)
    | GetPeek(elect: bool, h: nat, seen: nat)
    | GetClaim(elect: bool, h: nat, seen: nat, task: Task)
    | PutLook(task: Task, ctx: Context)
    | PutStore(task: Task, ctx: Context)
    | PutPublish(task: Task, ctx: Context)
    | Spill(task: Task, ctx: Context, h: nat, seen: nat, n: nat, temp: seq<Task>)
    | SpillLink(ctx: Context, chain: seq<Task>)
    | Hungry                                       // core_elect after its own __runqget gave NULL
    | Refill(left: nat, first: Option<Task>)
    | GrabHead(victim: nat)
    | GrabTail(victim: nat, h: nat, seen: nat)
    | GrabCopy(victim: nat, h: nat, seen: nat, n: nat, temp: seq<Task>)
    | Stash(task: Task, temp: seq<Task>, i: nat)

  /** `outside` are the tasks that are not ready: running, waiting or just handed to a VPU. */
  datatype State = State(rings: seq<Ring>, pcs: seq<Pc>, global: seq<Task>, lock: Option<nat>,
                         outside: multiset<Task>)

  datatype Action =
    | Add(task: Task)                  // atomic_queue_add by core_yield or a non-VPU thread
    | StartGet(v: nat, elect: bool)
    | StartPut(v: nat, task: Task)
    | StartRefill(v: nat)              // lock_try_acquire of the global queue succeeds
    | StartSteal(v: nat, w: nat)
    | GiveUp(v: nat)
    | Advance(v: nat)                  // the next access of whatever the VPU is doing

  function Put(s: State, v: nat, ring: Ring, pc: Pc): State
    requires v < |s.rings| && v < |s.pcs|
  {
    s.(rings := s.rings[v := ring], pcs := s.pcs[v := pc])
  }

  function Go(s: State, v: nat, pc: Pc): State
    requires v < |s.pcs|
  {
    s.(pcs := s.pcs[v := pc])
  }

  function Deliver(s: State, v: nat, task: Task): State
    requires v < |s.pcs|
  {
    s.(pcs := s.pcs[v := Idle], outside := s.outside + multiset{task})
  }

  function Return(ctx: Context): Pc {
    match ctx
    case Plain => Idle
    case Refilling(left, cand) => Refill(left, Some(cand))
  }

  /** The successful CAS that moves a head by `n`. */
  function Claimed(r: Ring, n: nat): Ring {
    r.(head := Add32(r.head, n), claims := r.claims + n)
  }

  function Published(r: Ring, n: nat): Ring {
    r.(tail := Add32(r.tail, n), puts := r.puts + n)
  }

  function Stored(r: Ring, i: nat, task: Task): Ring
    requires |r.slots| == SLOTS
  {
    r.(slots := r.slots[Add32(r.tail, i) % SLOTS := task])
  }

  function Load(r: Ring, h: nat, i: nat): Task
    requires |r.slots| == SLOTS
  {
    r.slots[Add32(h, i) % SLOTS]
  }

  predicate Shape(s: State) {
    |s.rings| == |s.pcs| &&
    (forall v :: 0 <= v < |s.rings| ==> |s.rings[v].slots| == SLOTS)
  }

  /** `Advance` is possible; only waiting for the global lock (and misuse) blocks it. */
  predicate CanAdvance(s: State, v: nat) {
    Shape(s) && v < |s.pcs| &&
    match s.pcs[v]
    case Idle => false
    case Hungry => false
    case SpillLink(_, _) => s.lock.None?
    case Refill(left, _) => left == 0 || s.global != []
    case GrabHead(w) => w < |s.rings|
    case GrabTail(w, _, _) => w < |s.rings|
    case GrabCopy(w, _, _, n, temp) => w < |s.rings| && 0 < n && |temp| <= n
    case Stash(_, temp, i) => i <= |temp|
    case _ => true
  }

  predicate Enabled(s: State, a: Action) {
    Shape(s) &&
    match a
    case Add(task) => s.lock.None? && task in s.outside
    case StartGet(v, _) => v < |s.pcs| && s.pcs[v].Idle?
    case StartPut(v, task) => v < |s.pcs| && s.pcs[v].Idle? && task in s.outside
    case StartRefill(v) => v < |s.pcs| && s.pcs[v].Hungry? && s.lock.None?
    case StartSteal(v, w) => v < |s.pcs| && w < |s.pcs| && v != w && s.pcs[v].Hungry?
    case GiveUp(v) => v < |s.pcs| && s.pcs[v].Hungry?
    case Advance(v) => CanAdvance(s, v)
  }

  /** __runqget (src/vpu.c:28-42). */
  function GetStep(s: State, v: nat): State
    requires CanAdvance(s, v)
    requires s.pcs[v].GetLook? || s.pcs[v].GetPeek? || s.pcs[v].GetClaim?
  {
    var r := s.rings[v];
    match s.pcs[v]
    case GetLook(elect) =>
      if r.tail == r.head then Go(s, v, if elect then Hungry else Idle)
      else Go(s, v, GetPeek(elect, r.head, r.claims))
    case GetPeek(elect, h, seen) => Go(s, v, GetClaim(elect, h, seen, Load(r, h, 0)))
    case GetClaim(elect, h, seen, task) =>
      if r.head == h then Deliver(Put(s, v, Claimed(r, 1), Idle), v, task)
      else Go(s, v, GetLook(elect))
  }

  /** __runqput and __runqputslow (src/vpu.c:44-90). */
  function PutStep(s: State, v: nat): State
    requires CanAdvance(s, v)
    requires s.pcs[v].PutLook? || s.pcs[v].PutStore? || s.pcs[v].PutPublish? || s.pcs[v].Spill? || s.pcs[v].SpillLink?
  {
    var r := s.rings[v];
    match s.pcs[v]
    case PutLook(task, ctx) =>
      var used := Sub32(r.tail, r.head);
      if used < SLOTS then Go(s, v, PutStore(task, ctx))
      else Go(s, v, Spill(task, ctx, r.head, r.claims, used / 2, []))
    case PutStore(task, ctx) => Put(s, v, Stored(r, 0, task), PutPublish(task, ctx))
    case PutPublish(task, ctx) => Put(s, v, Published(r, 1), Return(ctx))
    case Spill(task, ctx, h, seen, n, temp) =>
      if |temp| < n then Go(s, v, Spill(task, ctx, h, seen, n, temp + [Load(r, h, |temp|)]))
      else if r.head == h then Put(s, v, Claimed(r, n), SpillLink(ctx, temp + [task]))
      else Go(s, v, PutLook(task, ctx))
    case SpillLink(ctx, chain) => Go(s, v, Return(ctx)).(global := s.global + chain)
  }

  /** The refill loop of core_elect under the global lock (src/vpu.c:188-212). */
  function RefillStep(s: State, v: nat): State
    requires CanAdvance(s, v) && s.pcs[v].Refill?
  {
    match s.pcs[v]
    case Refill(left, first) =>
      if left == 0 then
        match first
        case None => Go(s, v, Hungry).(lock := None)
        case Some(cand) => Deliver(s, v, cand).(lock := None)
      else
        var task := s.global[0];
        Go(s, v, match first
                 case None => Refill(left - 1, Some(task))
                 case Some(cand) => PutLook(task, Refilling(left - 1, cand)))
        .(global := s.global[1..])
  }

  /** __runqgrab and __runqsteal (src/vpu.c:92-133). */
  function StealStep(s: State, v: nat): State
    requires CanAdvance(s, v)
    requires s.pcs[v].GrabHead? || s.pcs[v].GrabTail? || s.pcs[v].GrabCopy? || s.pcs[v].Stash?
  {
    match s.pcs[v]
    case GrabHead(w) => Go(s, v, GrabTail(w, s.rings[w].head, s.rings[w].claims))
    case GrabTail(w, h, seen) =>
      var used := Sub32(s.rings[w].tail, h);
      var n := used - used / 2;
      if n == 0 then Go(s, v, Hungry)
      else if n > HALF then Go(s, v, GrabHead(w))
      else Go(s, v, GrabCopy(w, h, seen, n, []))
    case GrabCopy(w, h, seen, n, temp) =>
      var r := s.rings[w];
      if |temp| < n then Go(s, v, GrabCopy(w, h, seen, n, temp + [Load(r, h, |temp|)]))
      else if r.head != h then Go(s, v, GrabHead(w))
      else
        var s1 := s.(rings := s.rings[w := Claimed(r, n)]);
        if n == 1 then Deliver(s1, v, temp[0])
        else Go(s1, v, Stash(temp[n - 1], temp[..n - 1], 0))
    case Stash(task, temp, i) =>
      var r := s.rings[v];
      if i < |temp| then Put(s, v, Stored(r, i, temp[i]), Stash(task, temp, i + 1))
      else Deliver(Put(s, v, Published(r, |temp|), Idle), v, task)
  }

  function Step(s: State, a: Action): State
    requires Enabled(s, a)
  {
    match a
    case Add(task) => s.(global := s.global + [task], outside := s.outside - multiset{task})
    case StartGet(v, elect) => Go(s, v, GetLook(elect))
    case StartPut(v, task) => Go(s, v, PutLook(task, Plain)).(outside := s.outside - multiset{task})
    case StartRefill(v) =>
      Go(s, v, Refill(if |s.global| < SLOTS - 1 then |s.global| else SLOTS - 1, None)).(lock := Some(v))
    case StartSteal(v, w) => Go(s, v, GrabHead(w))
    case GiveUp(v) => Go(s, v, Idle)
    case Advance(v) =>
      match s.pcs[v]
      case GetLook(_) => GetStep(s, v)
      case GetPeek(_, _, _) => GetStep(s, v)
      case GetClaim(_, _, _, _) => GetStep(s, v)
      case PutLook(_, _) => PutStep(s, v)
      case PutStore(_, _) => PutStep(s, v)
      case PutPublish(_, _) => PutStep(s, v)
      case Spill(_, _, _, _, _, _) => PutStep(s, v)
      case SpillLink(_, _) => PutStep(s, v)
      case Refill(_, _) => RefillStep(s, v)
      case GrabHead(_) => StealStep(s, v)
      case GrabTail(_, _, _) => StealStep(s, v)
      case GrabCopy(_, _, _, _, _) => StealStep(s, v)
      case Stash(_, _, _) => StealStep(s, v)
  }

  predicate Init(s: State) {
    Shape(s) && s.global == [] && s.lock.None? &&
    (forall v :: 0 <= v < |s.pcs| ==> s.pcs[v].Idle?) &&
    (forall v :: 0 <= v < |s.rings| ==>
      var r := s.rings[v]; r.head == 0 && r.tail == 0 && r.claims == 0 && r.puts == 0)
  }

  /* ---- 32-bit index arithmetic ---- */

  lemma SameIndex(a: nat, b: nat)
    requires a <= b < a + WORD
    ensures a % WORD == b % WORD <==> a == b
  {}

  lemma Distance(a: nat, b: nat)
    requires a <= b < a + WORD
    ensures Sub32(b % WORD, a % WORD) == b - a
  {}

  lemma WordRemainder(x: int, q: int, r: nat)
    requires x == q * WORD + r && r < WORD
    ensures x % WORD == r
  {}

  lemma SlotRemainder(x: int, q: int, r: nat)
    requires x == q * SLOTS + r && r < SLOTS
    ensures x % SLOTS == r
  {}

  /** 512 divides 2^32, so wrapping the index does not disturb the slot it selects. */
  lemma SlotOfWrapped(a: nat, i: nat)
    ensures Add32(a % WORD, i) == (a + i) % WORD
    ensures Add32(a % WORD, i) % SLOTS == (a + i) % SLOTS
  {
    var t := a % WORD + i;
    var q, u := a / WORD + t / WORD, t % WORD;
    assert a + i == q * WORD + u;
    WordRemainder(a + i, q, u);
    SlotRemainder(a + i, q * 0x80_0000 + u / SLOTS, u % SLOTS);
  }

  lemma SlotsDiffer(a: nat, b: nat)
    requires a < b < a + SLOTS
    ensures a % SLOTS != b % SLOTS
  {}

  /* ---- The window of a ring ---- */

  /** The slot that the k-th task ever put into the ring occupies. */
  function Slot(r: Ring, k: nat): Task
    requires |r.slots| == SLOTS
  {
    r.slots[k % SLOTS]
  }

  ghost predicate RingOk(r: Ring) {
    |r.slots| == SLOTS &&
    r.head == r.claims % WORD && r.tail == r.puts % WORD &&
    r.claims <= r.puts <= r.claims + SLOTS
  }

  /** The tasks queued in a ring, oldest first. */
  ghost function Window(r: Ring): (w: seq<Task>)
    requires RingOk(r)
    ensures |w| == r.puts - r.claims
  {
    seq(r.puts - r.claims, k requires 0 <= k < r.puts - r.claims => Slot(r, r.claims + k))
  }

  /* ---- Invariant ---- */

  /** `temp` is a faithful copy of the oldest entries of `r`, as long as nobody has claimed
      since `seen`. */
  ghost predicate CopyOk(r: Ring, h: nat, seen: nat, n: nat, temp: seq<Task>)
    requires RingOk(r)
  {
    h == seen % WORD && seen <= r.claims && |temp| <= n &&
    (seen == r.claims ==>
      seen + n <= r.puts && forall j :: 0 <= j < |temp| ==> temp[j] == Slot(r, seen + j))
  }

  /** A refill in progress: the lock is held, the tasks to fetch are there, and they fit. */
  ghost predicate RefillOk(s: State, v: nat, left: nat, pending: nat)
    requires v < |s.rings|
  {
    s.lock == Some(v) && left <= |s.global| &&
    s.rings[v].puts - s.rings[v].claims + left + pending <= SLOTS - 2
  }

  ghost predicate ContextOk(s: State, v: nat, ctx: Context)
    requires v < |s.rings|
  {
    match ctx
    case Plain => s.lock != Some(v)
    case Refilling(left, _) => RefillOk(s, v, left, 1)
  }

  ghost predicate Empty(r: Ring) { r.claims == r.puts }

  ghost predicate PcOk(s: State, v: nat)
    requires Shape(s) && v < |s.pcs|
  {
    var r := s.rings[v];
    RingOk(r) &&
    match s.pcs[v]
    case Idle => s.lock != Some(v)
    case GetLook(_) => s.lock != Some(v)
    case GetPeek(_, h, seen) => s.lock != Some(v) && CopyOk(r, h, seen, 1, [])
    case GetClaim(_, h, seen, task) => s.lock != Some(v) && CopyOk(r, h, seen, 1, [task])
    case PutLook(_, ctx) => ContextOk(s, v, ctx)
    case PutStore(_, ctx) => ContextOk(s, v, ctx) && r.puts - r.claims < SLOTS
    case PutPublish(task, ctx) =>
      ContextOk(s, v, ctx) && r.puts - r.claims < SLOTS && Slot(r, r.puts) == task
    case Spill(_, ctx, h, seen, n, temp) =>
      s.lock != Some(v) && ctx.Plain? && n == HALF && r.puts == seen + SLOTS && CopyOk(r, h, seen, n, temp)
    case SpillLink(ctx, chain) => s.lock != Some(v) && ctx.Plain? && |chain| == HALF + 1
    case Hungry => s.lock != Some(v) && Empty(r)
    case Refill(left, first) =>
      if first.None? then s.lock == Some(v) && left <= |s.global| && Empty(r) && left <= SLOTS - 1
      else RefillOk(s, v, left, 0)
    case GrabHead(w) => s.lock != Some(v) && Empty(r) && w < |s.rings| && w != v
    case GrabTail(w, h, seen) =>
      s.lock != Some(v) && Empty(r) && w < |s.rings| && w != v &&
      RingOk(s.rings[w]) && CopyOk(s.rings[w], h, seen, 0, [])
    case GrabCopy(w, h, seen, n, temp) =>
      s.lock != Some(v) && Empty(r) && w < |s.rings| && w != v && 1 <= n <= HALF &&
      RingOk(s.rings[w]) && CopyOk(s.rings[w], h, seen, n, temp)
    case Stash(_, temp, i) =>
      s.lock != Some(v) && Empty(r) && 1 <= |temp| < HALF && i <= |temp| &&
      forall j :: 0 <= j < i ==> Slot(r, r.puts + j) == temp[j]
  }

  ghost predicate Inv(s: State) {
    Shape(s) && forall v :: 0 <= v < |s.pcs| ==> PcOk(s, v)
  }

  /** Fewer than 2^32 claims happen between a head read and the CAS that relies on it. */
  ghost predicate Fresh(s: State)
    requires Shape(s)
  {
    forall v :: 0 <= v < |s.pcs| ==>
      match s.pcs[v]
      case GetClaim(_, _, seen, _) => s.rings[v].claims < seen + WORD
      case Spill(_, _, _, seen, _, _) => s.rings[v].claims < seen + WORD
      case GrabCopy(w, _, seen, _, _) => w < |s.rings| ==> s.rings[w].claims < seen + WORD
      case _ => true
  }

  /* ---- Frame: what a step of one VPU leaves true of the others ---- */

  /** How a ring may change under a step: claims and puts only grow, and entries that are still
      unclaimed keep their slots.  A VPU other than the owner can only claim. */
  ghost predicate Evolves(r: Ring, r': Ring, byOwner: bool) {
    RingOk(r) && RingOk(r') && r.claims <= r'.claims && r.puts <= r'.puts &&
    (forall k {:trigger Slot(r', k)} :: r'.claims <= k < r.puts ==> Slot(r', k) == Slot(r, k)) &&
    (!byOwner ==> r'.puts == r.puts && r'.slots == r.slots)
  }

  lemma CopySurvives(r: Ring, r': Ring, byOwner: bool, h: nat, seen: nat, n: nat, temp: seq<Task>)
    requires Evolves(r, r', byOwner) && CopyOk(r, h, seen, n, temp)
    ensures CopyOk(r', h, seen, n, temp)
  {
    if seen == r'.claims {
      assert forall j :: 0 <= j < |temp| ==> temp[j] == Slot(r, seen + j) == Slot(r', seen + j);
    }
  }

  lemma OtherKeeps(s: State, s': State, v: nat, u: nat)
    requires Shape(s) && Shape(s') && |s.pcs| == |s'.pcs| && v != u && u < |s.pcs| && PcOk(s, u)
    requires s'.pcs[u] == s.pcs[u]
    requires forall w :: 0 <= w < |s.rings| ==> Evolves(s.rings[w], s'.rings[w], w != u)
    requires s.lock == Some(u) <==> s'.lock == Some(u)
    requires s.lock == Some(u) ==> s'.global == s.global
    ensures PcOk(s', u)
  {
    var r, r' := s.rings[u], s'.rings[u];
    assert Evolves(r, r', false);
    match s.pcs[u] {
      case GetPeek(_, h, seen) => CopySurvives(r, r', false, h, seen, 1, []);
      case GetClaim(_, h, seen, task) => CopySurvives(r, r', false, h, seen, 1, [task]);
      case Spill(_, _, h, seen, n, temp) => CopySurvives(r, r', false, h, seen, n, temp);
      case GrabTail(w, h, seen) => CopySurvives(s.rings[w], s'.rings[w], true, h, seen, 0, []);
      case GrabCopy(w, h, seen, n, temp) => CopySurvives(s.rings[w], s'.rings[w], true, h, seen, n, temp);
      case _ =>
    }
  }

  /* ---- Ring transformations ---- */

  lemma ClaimEvolves(r: Ring, n: nat)
    requires RingOk(r) && n <= r.puts - r.claims
    ensures Evolves(r, Claimed(r, n), false)
    ensures Window(Claimed(r, n)) == Window(r)[n..]
  {
    SlotOfWrapped(r.claims, n);
    var r' := Claimed(r, n);
    assert forall k: nat :: Slot(r', k) == Slot(r, k);
    assert forall j :: 0 <= j < |Window(r')| ==> Window(r')[j] == Slot(r, r'.claims + j) == Window(r)[n..][j];
  }

  /** Writing beyond the window: the i-th free slot after the tail. */
  lemma StoreEvolves(r: Ring, i: nat, task: Task)
    requires RingOk(r) && r.puts - r.claims + i < SLOTS
    ensures Evolves(r, Stored(r, i, task), true)
    ensures Window(Stored(r, i, task)) == Window(r)
    ensures Slot(Stored(r, i, task), r.puts + i) == task
    ensures forall k {:trigger Slot(Stored(r, i, task), k)} ::
      r.claims <= k < r.puts + i ==> Slot(Stored(r, i, task), k) == Slot(r, k)
  {
    SlotOfWrapped(r.puts, i);
    var r' := Stored(r, i, task);
    forall k | r.claims <= k < r.puts + i ensures Slot(r', k) == Slot(r, k) {
      SlotsDiffer(k, r.puts + i);
    }
    assert forall j :: 0 <= j < |Window(r')| ==> Window(r')[j] == Slot(r', r.claims + j) == Window(r)[j];
  }

  lemma PublishEvolves(r: Ring, tasks: seq<Task>)
    requires RingOk(r) && r.puts - r.claims + |tasks| <= SLOTS
    requires forall j :: 0 <= j < |tasks| ==> Slot(r, r.puts + j) == tasks[j]
    ensures Evolves(r, Published(r, |tasks|), true)
    ensures Window(Published(r, |tasks|)) == Window(r) + tasks
  {
    SlotOfWrapped(r.puts, |tasks|);
    var r' := Published(r, |tasks|);
    assert forall k: nat :: Slot(r', k) == Slot(r, k);
    forall j | 0 <= j < |Window(r')| ensures Window(r')[j] == (Window(r) + tasks)[j] {
      if j >= |Window(r)| {
        assert Slot(r, r.puts + (j - |Window(r)|)) == tasks[j - |Window(r)|];
      }
    }
  }

  lemma StayEvolves(r: Ring)
    requires RingOk(r)
    ensures Evolves(r, r, false)
  {}

  /** What a CAS on the head means while the head read is fresh: it succeeds exactly when nobody
      has claimed since, and then the copied slots are the oldest `n` tasks of the window. */
  lemma CasIsExact(r: Ring, h: nat, seen: nat, n: nat, temp: seq<Task>)
    requires RingOk(r) && CopyOk(r, h, seen, n, temp) && |temp| == n && r.claims < seen + WORD
    ensures r.head == h <==> r.claims == seen
    ensures r.head == h ==> n <= |Window(r)| && temp == Window(r)[..n]
  {
    SameIndex(seen, r.claims);
    if r.claims == seen {
      assert forall j :: 0 <= j < n ==> temp[j] == Slot(r, r.claims + j) == Window(r)[j];
    }
  }

  lemma CopyExtends(r: Ring, h: nat, seen: nat, n: nat, temp: seq<Task>)
    requires RingOk(r) && CopyOk(r, h, seen, n, temp) && |temp| < n
    ensures CopyOk(r, h, seen, n, temp + [Load(r, h, |temp|)])
  {
    SlotOfWrapped(seen, |temp|);
    assert Load(r, h, |temp|) == Slot(r, seen + |temp|);
  }

  /* ---- Conservation ---- */

  function HandOfContext(ctx: Context): multiset<Task> {
    if ctx.Plain? then multiset{} else multiset{ctx.cand}
  }

  /** The tasks a VPU has taken out of every queue and not yet put back or handed over.  Slots
      copied before the CAS are not among them. */
  function Hand(pc: Pc): multiset<Task> {
    match pc
    case PutLook(task, ctx) => multiset{task} + HandOfContext(ctx)
    case PutStore(task, ctx) => multiset{task} + HandOfContext(ctx)
    case PutPublish(task, ctx) => multiset{task} + HandOfContext(ctx)
    case Spill(task, ctx, _, _, _, _) => multiset{task} + HandOfContext(ctx)
    case SpillLink(ctx, chain) => multiset(chain) + HandOfContext(ctx)
    case Refill(_, first) => if first.None? then multiset{} else multiset{first.value}
    case Stash(task, temp, _) => multiset{task} + multiset(temp)
    case _ => multiset{}
  }

  function HandOf(x: Task): Pc -> int { pc => Hand(pc)[x] }

  /** How many of the VPUs' hands hold task x. */
  function InHands(pcs: seq<Pc>, x: Task): nat {
    SumIsNat(pcs, HandOf(x));
    Sum(pcs, HandOf(x))
  }

  ghost predicate RingsOk(rings: seq<Ring>) {
    forall v :: 0 <= v < |rings| ==> RingOk(rings[v])
  }

  ghost function InRing(r: Ring, x: Task): nat {
    if RingOk(r) then multiset(Window(r))[x] else 0
  }

  ghost function RingOf(x: Task): Ring -> int { r => InRing(r, x) }

  /** How many entries of the ring windows are task x. */
  ghost function InRings(rings: seq<Ring>, x: Task): nat {
    SumIsNat(rings, RingOf(x));
    Sum(rings, RingOf(x))
  }

  /** In how many places of the system task x is. */
  ghost function Copies(s: State, x: Task): nat
    requires RingsOk(s.rings)
  {
    InRings(s.rings, x) + InHands(s.pcs, x) + multiset(s.global)[x] + s.outside[x]
  }

  lemma InvRings(s: State)
    requires Inv(s)
    ensures RingsOk(s.rings)
  {
    forall v | 0 <= v < |s.rings| ensures RingOk(s.rings[v]) {
      assert PcOk(s, v);
    }
  }

  ghost predicate Keeps(s: State, s': State) {
    Inv(s') && RingsOk(s.rings) && RingsOk(s'.rings) && forall x :: Copies(s', x) == Copies(s, x)
  }

  /** A step of VPU v that may change ring w, seen from one place. */
  ghost predicate Local(s: State, s': State, v: nat, w: nat) {
    v < |s.pcs| && w < |s.rings| && |s'.rings| == |s.rings| && |s'.pcs| == |s.pcs| &&
    s'.rings == s.rings[w := s'.rings[w]] && s'.pcs == s.pcs[v := s'.pcs[v]] &&
    Evolves(s.rings[w], s'.rings[w], w == v) &&
    (s'.lock == s.lock || (s.lock.None? && s'.lock == Some(v)) || (s.lock == Some(v) && s'.lock.None?)) &&
    (s'.global == s.global || s.lock.None? || s.lock == Some(v))
  }

  ghost predicate Balanced(s: State, s': State, v: nat, w: nat)
    requires Local(s, s', v, w)
  {
    forall x :: InRing(s'.rings[w], x) + Hand(s'.pcs[v])[x] + multiset(s'.global)[x] + s'.outside[x] ==
                InRing(s.rings[w], x) + Hand(s.pcs[v])[x] + multiset(s.global)[x] + s.outside[x]
  }

  lemma OthersKeep(s: State, s': State, v: nat, w: nat)
    requires Inv(s) && Local(s, s', v, w) && Shape(s') && PcOk(s', v)
    ensures Inv(s')
  {
    InvRings(s);
    forall u | 0 <= u < |s.pcs| ensures PcOk(s', u) {
      if u != v {
        forall x | 0 <= x < |s.rings| ensures Evolves(s.rings[x], s'.rings[x], x != u) {
          if x != w { StayEvolves(s.rings[x]); }
        }
        assert PcOk(s, u);
        OtherKeeps(s, s', v, u);
      }
    }
  }

  /** A local step keeps the invariant and every task count if it leaves v in order and
      balances. */
  lemma Assemble(s: State, s': State, v: nat, w: nat)
    requires Inv(s) && Local(s, s', v, w) && Shape(s') && PcOk(s', v) && Balanced(s, s', v, w)
    ensures Keeps(s, s')
  {
    OthersKeep(s, s', v, w);
    InvRings(s);
    InvRings(s');
    forall x ensures Copies(s', x) == Copies(s, x) {
      SumUpdate(s.rings, RingOf(x), w, s'.rings[w]);
      SumUpdate(s.pcs, HandOf(x), v, s'.pcs[v]);
    }
  }

  /** A step that only moves the program position. */
  lemma GoKeeps(s: State, v: nat, pc: Pc)
    requires Inv(s) && v < |s.pcs| && PcOk(Go(s, v, pc), v) && Hand(pc) == Hand(s.pcs[v])
    ensures Keeps(s, Go(s, v, pc))
  {
    var s' := Go(s, v, pc);
    StayEvolves(s.rings[v]);
    assert s'.rings == s.rings[v := s'.rings[v]];
    Assemble(s, s', v, v);
  }

  /** A successful CAS: the `n` oldest tasks of ring w leave the window for v's hands or for the
      outside. */
  lemma ClaimKeeps(s: State, s': State, v: nat, w: nat, n: nat)
    requires Inv(s) && v < |s.pcs| && w < |s.rings| && RingOk(s.rings[w]) && n <= |Window(s.rings[w])|
    requires s'.rings == s.rings[w := Claimed(s.rings[w], n)]
    requires |s'.pcs| == |s.pcs| && s'.pcs == s.pcs[v := s'.pcs[v]]
    requires s'.lock == s.lock && s'.global == s.global && Shape(s') && PcOk(s', v)
    requires forall x :: Hand(s'.pcs[v])[x] + s'.outside[x] ==
                         Hand(s.pcs[v])[x] + s.outside[x] + multiset(Window(s.rings[w])[..n])[x]
    ensures Keeps(s, s')
  {
    var r := s.rings[w];
    ClaimEvolves(r, n);
    assert Window(r) == Window(r)[..n] + Window(r)[n..];
    assert Balanced(s, s', v, w);
    Assemble(s, s', v, w);
  }

  lemma GetLookKeeps(s: State, v: nat)
    requires Inv(s) && CanAdvance(s, v) && s.pcs[v].GetLook?
    ensures Keeps(s, GetStep(s, v))
  {
    assert PcOk(s, v);
    SameIndex(s.rings[v].claims, s.rings[v].puts);
    GoKeeps(s, v, GetStep(s, v).pcs[v]);
  }

  lemma GetPeekKeeps(s: State, v: nat)
    requires Inv(s) && CanAdvance(s, v) && s.pcs[v].GetPeek?
    ensures Keeps(s, GetStep(s, v))
  {
    assert PcOk(s, v);
    var r, pc := s.rings[v], s.pcs[v];
    var task := Load(r, pc.h, 0);
    CopyExtends(r, pc.h, pc.seen, 1, []);
    assert [] + [task] == [task];
    GoKeeps(s, v, GetClaim(pc.elect, pc.h, pc.seen, task));
  }

  lemma GetClaimKeeps(s: State, v: nat)
    requires Inv(s) && Fresh(s) && CanAdvance(s, v) && s.pcs[v].GetClaim?
    ensures Keeps(s, GetStep(s, v))
  {
    assert PcOk(s, v);
    var r, pc := s.rings[v], s.pcs[v];
    CasIsExact(r, pc.h, pc.seen, 1, [pc.task]);
    if r.head == pc.h {
      ClaimEvolves(r, 1);
      ClaimKeeps(s, GetStep(s, v), v, v, 1);
    } else {
      GoKeeps(s, v, GetLook(pc.elect));
    }
  }

  lemma PutLookKeeps(s: State, v: nat)
    requires Inv(s) && CanAdvance(s, v) && s.pcs[v].PutLook?
    ensures Keeps(s, PutStep(s, v))
  {
    assert PcOk(s, v);
    var r, pc := s.rings[v], s.pcs[v];
    Distance(r.claims, r.puts);
    GoKeeps(s, v, if Sub32(r.tail, r.head) < SLOTS then PutStore(pc.task, pc.ctx)
                  else Spill(pc.task, pc.ctx, r.head, r.claims, Sub32(r.tail, r.head) / 2, []));
  }

  lemma PutStoreKeeps(s: State, v: nat)
    requires Inv(s) && CanAdvance(s, v) && s.pcs[v].PutStore?
    ensures Keeps(s, PutStep(s, v))
  {
    assert PcOk(s, v);
    StoreEvolves(s.rings[v], 0, s.pcs[v].task);
    Assemble(s, PutStep(s, v), v, v);
  }

  lemma PutPublishKeeps(s: State, v: nat)
    requires Inv(s) && CanAdvance(s, v) && s.pcs[v].PutPublish?
    ensures Keeps(s, PutStep(s, v))
  {
    assert PcOk(s, v);
    var r, pc := s.rings[v], s.pcs[v];
    PublishEvolves(r, [pc.task]);
    Assemble(s, PutStep(s, v), v, v);
  }

  lemma SpillCopyKeeps(s: State, v: nat)
    requires Inv(s) && CanAdvance(s, v) && s.pcs[v].Spill? && |s.pcs[v].temp| < s.pcs[v].n
    ensures Keeps(s, PutStep(s, v))
  {
    assert PcOk(s, v);
    var r, pc := s.rings[v], s.pcs[v];
    CopyExtends(r, pc.h, pc.seen, pc.n, pc.temp);
    GoKeeps(s, v, Spill(pc.task, pc.ctx, pc.h, pc.seen, pc.n, pc.temp + [Load(r, pc.h, |pc.temp|)]));
  }

  lemma SpillCasKeeps(s: State, v: nat)
    requires Inv(s) && Fresh(s) && CanAdvance(s, v) && s.pcs[v].Spill? && |s.pcs[v].temp| >= s.pcs[v].n
    ensures Keeps(s, PutStep(s, v))
  {
    assert PcOk(s, v);
    var r, pc := s.rings[v], s.pcs[v];
    CasIsExact(r, pc.h, pc.seen, pc.n, pc.temp);
    if r.head == pc.h {
      ClaimEvolves(r, pc.n);
      assert multiset(pc.temp + [pc.task]) == multiset(pc.temp) + multiset{pc.task};
      ClaimKeeps(s, PutStep(s, v), v, v, pc.n);
    } else {
      GoKeeps(s, v, PutLook(pc.task, pc.ctx));
    }
  }

  lemma SpillLinkKeeps(s: State, v: nat)
    requires Inv(s) && CanAdvance(s, v) && s.pcs[v].SpillLink?
    ensures Keeps(s, PutStep(s, v))
  {
    assert PcOk(s, v);
    StayEvolves(s.rings[v]);
    Assemble(s, PutStep(s, v), v, v);
  }

  lemma RefillKeeps(s: State, v: nat)
    requires Inv(s) && CanAdvance(s, v) && s.pcs[v].Refill?
    ensures Keeps(s, RefillStep(s, v))
  {
    assert PcOk(s, v);
    StayEvolves(s.rings[v]);
    if s.pcs[v].left > 0 {
      assert s.global == [s.global[0]] + s.global[1..];
    }
    Assemble(s, RefillStep(s, v), v, v);
  }

  lemma GrabLookKeeps(s: State, v: nat)
    requires Inv(s) && CanAdvance(s, v) && (s.pcs[v].GrabHead? || s.pcs[v].GrabTail?)
    ensures Keeps(s, StealStep(s, v))
  {
    assert PcOk(s, v);
    var w := s.pcs[v].victim;
    assert PcOk(s, w);
    Distance(s.rings[w].claims, s.rings[w].puts);
    GoKeeps(s, v, StealStep(s, v).pcs[v]);
  }

  lemma GrabCopyKeeps(s: State, v: nat)
    requires Inv(s) && CanAdvance(s, v) && s.pcs[v].GrabCopy? && |s.pcs[v].temp| < s.pcs[v].n
    ensures Keeps(s, StealStep(s, v))
  {
    assert PcOk(s, v);
    var r, pc := s.rings[s.pcs[v].victim], s.pcs[v];
    CopyExtends(r, pc.h, pc.seen, pc.n, pc.temp);
    GoKeeps(s, v, GrabCopy(pc.victim, pc.h, pc.seen, pc.n, pc.temp + [Load(r, pc.h, |pc.temp|)]));
  }

  /** The thief holds a faithful copy of the oldest tasks and its CAS is about to succeed. */
  ghost predicate Winning(s: State, v: nat) {
    CanAdvance(s, v) && s.pcs[v].GrabCopy? && PcOk(s, v) &&
    var (r, pc) := (s.rings[s.pcs[v].victim], s.pcs[v]);
    |pc.temp| == pc.n && r.head == pc.h && pc.n <= |Window(r)| && pc.temp == Window(r)[..pc.n]
  }

  lemma GrabOneKeeps(s: State, v: nat)
    requires Inv(s) && Winning(s, v) && s.pcs[v].n == 1
    ensures Keeps(s, StealStep(s, v))
  {
    var pc := s.pcs[v];
    ClaimEvolves(s.rings[pc.victim], 1);
    assert pc.temp == [pc.temp[0]];
    ClaimKeeps(s, StealStep(s, v), v, pc.victim, 1);
  }

  /** The stolen tasks split into the one to run and the ones to stash. */
  lemma GrabManyKeeps(s: State, v: nat)
    requires Inv(s) && Winning(s, v) && s.pcs[v].n > 1
    ensures Keeps(s, StealStep(s, v))
  {
    var pc, s' := s.pcs[v], StealStep(s, v);
    ClaimEvolves(s.rings[pc.victim], pc.n);
    var rest, last := pc.temp[..pc.n - 1], pc.temp[pc.n - 1];
    assert pc.temp == rest + [last];
    assert Hand(s'.pcs[v]) == multiset(pc.temp);
    ClaimKeeps(s, s', v, pc.victim, pc.n);
  }

  lemma GrabCasKeeps(s: State, v: nat)
    requires Inv(s) && Fresh(s) && CanAdvance(s, v) && s.pcs[v].GrabCopy? && |s.pcs[v].temp| >= s.pcs[v].n
    ensures Keeps(s, StealStep(s, v))
  {
    assert PcOk(s, v);
    var r, pc := s.rings[s.pcs[v].victim], s.pcs[v];
    CasIsExact(r, pc.h, pc.seen, pc.n, pc.temp);
    if r.head == pc.h {
      if pc.n == 1 { GrabOneKeeps(s, v); } else { GrabManyKeeps(s, v); }
    } else {
      GoKeeps(s, v, GrabHead(pc.victim));
    }
  }

  lemma StashStoreKeeps(s: State, v: nat)
    requires Inv(s) && CanAdvance(s, v) && s.pcs[v].Stash? && s.pcs[v].i < |s.pcs[v].temp|
    ensures Keeps(s, StealStep(s, v))
  {
    assert PcOk(s, v);
    var r, pc := s.rings[v], s.pcs[v];
    StoreEvolves(r, pc.i, pc.temp[pc.i]);
    Assemble(s, StealStep(s, v), v, v);
  }

  lemma StashPublishKeeps(s: State, v: nat)
    requires Inv(s) && CanAdvance(s, v) && s.pcs[v].Stash? && s.pcs[v].i >= |s.pcs[v].temp|
    ensures Keeps(s, StealStep(s, v))
  {
    assert PcOk(s, v);
    var r, pc := s.rings[v], s.pcs[v];
    PublishEvolves(r, pc.temp);
    Assemble(s, StealStep(s, v), v, v);
  }

  lemma StartKeeps(s: State, a: Action)
    requires Inv(s) && Enabled(s, a) && (a.StartGet? || a.StartSteal? || a.GiveUp?)
    ensures Keeps(s, Step(s, a))
  {
    assert PcOk(s, a.v);
    GoKeeps(s, a.v, Step(s, a).pcs[a.v]);
  }

  lemma EnterKeeps(s: State, a: Action)
    requires Inv(s) && Enabled(s, a) && a.StartPut?
    ensures Keeps(s, Step(s, a))
  {
    var v, s' := a.v, Step(s, a);
    assert PcOk(s, v);
    StayEvolves(s.rings[v]);
    assert s'.rings == s.rings[v := s'.rings[v]];
    Assemble(s, s', v, v);
  }

  lemma LockKeeps(s: State, a: Action)
    requires Inv(s) && Enabled(s, a) && a.StartRefill?
    ensures Keeps(s, Step(s, a))
  {
    var v, s' := a.v, Step(s, a);
    assert PcOk(s, v);
    StayEvolves(s.rings[v]);
    assert s'.rings == s.rings[v := s'.rings[v]];
    Assemble(s, s', v, v);
  }

  lemma AddKeeps(s: State, task: Task)
    requires Inv(s) && Enabled(s, Add(task))
    ensures Keeps(s, Step(s, Add(task)))
  {
    var s' := Step(s, Add(task));
    InvRings(s);
    forall v | 0 <= v < |s.pcs| ensures PcOk(s', v) {
      assert PcOk(s, v);
    }
  }

  lemma AdvanceKeeps(s: State, v: nat)
    requires Inv(s) && Fresh(s) && CanAdvance(s, v)
    ensures Keeps(s, Step(s, Advance(v)))
  {
    match s.pcs[v] {
      case GetLook(_) => GetLookKeeps(s, v);
      case GetPeek(_, _, _) => GetPeekKeeps(s, v);
      case GetClaim(_, _, _, _) => GetClaimKeeps(s, v);
      case PutLook(_, _) => PutLookKeeps(s, v);
      case PutStore(_, _) => PutStoreKeeps(s, v);
      case PutPublish(_, _) => PutPublishKeeps(s, v);
      case Spill(_, _, _, _, n, temp) => if |temp| < n { SpillCopyKeeps(s, v); } else { SpillCasKeeps(s, v); }
      case SpillLink(_, _) => SpillLinkKeeps(s, v);
      case Refill(_, _) => RefillKeeps(s, v);
      case GrabHead(_) => GrabLookKeeps(s, v);
      case GrabTail(_, _, _) => GrabLookKeeps(s, v);
      case GrabCopy(_, _, _, n, temp) => if |temp| < n { GrabCopyKeeps(s, v); } else { GrabCasKeeps(s, v); }
      case Stash(_, temp, i) => if i < |temp| { StashStoreKeeps(s, v); } else { StashPublishKeeps(s, v); }
    }
  }

  /** Every step from a good state keeps the invariant and moves every task without losing or
      duplicating it. */
  lemma StepKeeps(s: State, a: Action)
    requires Inv(s) && Fresh(s) && Enabled(s, a)
    ensures Keeps(s, Step(s, a))
  {
    match a {
      case Add(task) => AddKeeps(s, task);
      case StartGet(_, _) => StartKeeps(s, a);
      case StartPut(_, _) => EnterKeeps(s, a);
      case StartRefill(_) => LockKeeps(s, a);
      case StartSteal(_, _) => StartKeeps(s, a);
      case GiveUp(_) => StartKeeps(s, a);
      case Advance(v) => AdvanceKeeps(s, v);
    }
  }

  /* ---- Whole runs ---- */

  ghost predicate IsRun(trace: seq<State>, actions: seq<Action>) {
    |trace| == |actions| + 1 && Init(trace[0]) &&
    forall i :: 0 <= i < |actions| ==>
      Enabled(trace[i], actions[i]) && Fresh(trace[i]) && trace[i + 1] == Step(trace[i], actions[i])
  }

  lemma {:induction false} NothingQueued(rings: seq<Ring>, pcs: seq<Pc>, x: Task)
    requires RingsOk(rings) && |rings| == |pcs|
    requires forall v :: 0 <= v < |rings| ==> Empty(rings[v]) && pcs[v].Idle?
    ensures InRings(rings, x) == 0 && InHands(pcs, x) == 0
  {
    var n := |rings| - 1;
    if n >= 0 { NothingQueued(rings[..n], pcs[..n], x); }
  }

  lemma {:induction false} InitOk(s: State, x: Task)
    requires Init(s)
    ensures Inv(s) && RingsOk(s.rings) && Copies(s, x) == s.outside[x]
  {
    InvRings(s);
    NothingQueued(s.rings, s.pcs, x);
  }

  /** For every interleaving, in every state: the invariant holds and each task is in exactly as
      many places as it started with. */
  lemma {:induction false} NothingLostOrDuplicated(trace: seq<State>, actions: seq<Action>, i: nat, x: Task)
    requires IsRun(trace, actions) && i < |trace|
    ensures Inv(trace[i]) && RingsOk(trace[i].rings) && Copies(trace[i], x) == trace[0].outside[x]
  {
    if i == 0 {
      InitOk(trace[0], x);
    } else {
      NothingLostOrDuplicated(trace, actions, i - 1, x);
      StepKeeps(trace[i - 1], actions[i - 1]);
    }
  }

  /** A task that exists once is never queued in two rings, nor queued and running at once. */
  lemma OnePlaceOnly(trace: seq<State>, actions: seq<Action>, i: nat, x: Task)
    requires IsRun(trace, actions) && i < |trace| && trace[0].outside[x] == 1
    ensures RingsOk(trace[i].rings)
    ensures var s := trace[i];
            (x in s.outside ==> x !in s.global && InRings(s.rings, x) == 0 && InHands(s.pcs, x) == 0) &&
            (x in s.global ==> InRings(s.rings, x) == 0 && InHands(s.pcs, x) == 0) &&
            InRings(s.rings, x) + InHands(s.pcs, x) <= 1
  {
    NothingLostOrDuplicated(trace, actions, i, x);
    assert x in trace[i].global ==> multiset(trace[i].global)[x] >= 1;
  }

  /** A thief whose CAS succeeds has copied exactly the oldest tasks of the victim, takes no more
      than half the ring, and leaves the victim the rest in order. */
  lemma StealTakesOldest(trace: seq<State>, actions: seq<Action>, i: nat)
    requires IsRun(trace, actions) && i < |actions| && actions[i].Advance?
    requires var pc := trace[i].pcs[actions[i].v];
             pc.GrabCopy? && |pc.temp| == pc.n && trace[i].rings[pc.victim].head == pc.h
    ensures var pc := trace[i].pcs[actions[i].v];
            var (r, r') := (trace[i].rings[pc.victim], trace[i + 1].rings[pc.victim]);
            RingOk(r) && RingOk(r') && 1 <= pc.n <= HALF && pc.temp == Window(r)[..pc.n] && Window(r') == Window(r)[pc.n..]
  {
    NothingLostOrDuplicated(trace, actions, i, 0);
    var s, v := trace[i], actions[i].v;
    assert PcOk(s, v);
    var pc := s.pcs[v];
    CasIsExact(s.rings[pc.victim], pc.h, pc.seen, pc.n, pc.temp);
    ClaimEvolves(s.rings[pc.victim], pc.n);
  }

  /** The assertions of the source and the bounds it relies on, in every reachable state: a spill
      moves exactly half of a full ring; copies fit the 256-entry arrays; the stash after a steal
      goes into an empty ring, whatever head the thief reads; and a refill never finds its ring
      full, so it never takes the spill path while holding the global lock. */
  lemma RingBounds(trace: seq<State>, actions: seq<Action>, i: nat, v: nat)
    requires IsRun(trace, actions) && i < |trace| && v < |trace[i].pcs|
    ensures |trace[i].rings| == |trace[i].pcs| && WithinBounds(trace[i], v)
  {
    NothingLostOrDuplicated(trace, actions, i, 0);
    BoundsHold(trace[i], v);
  }

  predicate WithinBounds(s: State, v: nat)
    requires v < |s.pcs| == |s.rings|
  {
    var (r, pc) := (s.rings[v], s.pcs[v]);
    && Sub32(r.tail, r.head) <= SLOTS
    && (pc.Spill? ==> pc.n == HALF && |pc.temp| <= HALF && s.lock != Some(v))
    && (pc.SpillLink? ==> s.lock != Some(v))
    && (pc.GrabCopy? ==> pc.n <= HALF && |pc.temp| <= HALF)
    && (pc.Stash? ==> Sub32(r.tail, r.head) == 0 && Sub32(r.tail, r.head) + |pc.temp| < SLOTS)
    && (pc.Refill? && pc.left > 0 ==> s.global != [])
    && (pc.PutLook? && s.lock == Some(v) ==> Sub32(r.tail, r.head) < SLOTS)
  }

  lemma BoundsHold(s: State, v: nat)
    requires Inv(s) && v < |s.pcs| == |s.rings|
    ensures WithinBounds(s, v)
  {
    assert PcOk(s, v);
    Distance(s.rings[v].claims, s.rings[v].puts);
  }

  /** Why freshness is assumed: the 32-bit comparison of the CAS is blind to exactly the multiples
      of 2^32 claims. */
  lemma CasComparesModuloWord(r: Ring, h: nat, seen: nat)
    requires RingOk(r) && h == seen % WORD && seen <= r.claims
    ensures r.head == h <==> (r.claims - seen) % WORD == 0
  {
    var d := r.claims - seen;
    var t := seen % WORD + d % WORD;
    assert r.claims == (seen / WORD + d / WORD) * WORD + t;
    if t < WORD {
      WordRemainder(r.claims, seen / WORD + d / WORD, t);
    } else {
      WordRemainder(r.claims, seen / WORD + d / WORD + 1, t - WORD);
    }
  }
}
