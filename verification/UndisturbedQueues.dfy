/** What the run-queue operations of src/vpu.c do from call to return when no other VPU acts in between:
    each of them, taken as a whole, is a simple operation on the sequences of queued tasks.  Together with
    module WorkStealing, where all interleavings are considered, this fixes how many tasks each operation
    moves, which ones and where to. */
module UndisturbedQueues {
  import opened Common
  import opened WorkStealing

  /** n steps of a relation lead from s to s'. */
  ghost predicate After<S(!new)>(rel: (S, S) -> bool, s: S, n: nat, s': S)
    decreases n
  {
    if n == 0 then s == s' else exists m :: rel(s, m) && After(rel, m, n - 1, s')
  }

  lemma {:induction false} AfterAfter<S(!new)>(rel: (S, S) -> bool, s: S, n: nat, m: S, k: nat, s': S)
    requires After(rel, s, n, m) && After(rel, m, k, s')
    ensures After(rel, s, n + k, s')
    decreases n
  {
    if n > 0 {
      var s1 :| rel(s, s1) && After(rel, s1, n - 1, m);
      AfterAfter(rel, s1, n - 1, m, k, s');
    }
  }

  /** The next access of VPU v. */
  ghost function Access(v: nat): (State, State) -> bool {
    (s: State, s': State) => CanAdvance(s, v) && s' == Step(s, Advance(v))
  }

  /** Accesses of VPU v alone lead from s to s'. */
  ghost predicate Leads(s: State, v: nat, s': State) {
    exists n: nat :: After(Access(v), s, n, s')
  }

  lemma Then(s: State, v: nat, m: State, s': State)
    requires Leads(s, v, m) && Leads(m, v, s')
    ensures Leads(s, v, s')
  {
    var n: nat :| After(Access(v), s, n, m);
    var k: nat :| After(Access(v), m, k, s');
    AfterAfter(Access(v), s, n, m, k, s');
  }

  lemma Nothing(s: State, v: nat)
    ensures Leads(s, v, s)
  {
    assert After(Access(v), s, 0, s);
  }

  /** One access. */
  lemma Once(s: State, v: nat, s': State)
    requires CanAdvance(s, v) && s' == Step(s, Advance(v))
    ensures Leads(s, v, s')
  {
    assert Access(v)(s, s') && After(Access(v), s', 0, s');
    assert After(Access(v), s, 1, s');
  }

  /** The tasks queued in the ring of VPU v. */
  ghost function Tasks(s: State, v: nat): seq<Task>
    requires v < |s.rings| && RingOk(s.rings[v])
  {
    Window(s.rings[v])
  }

  /** Only the listed rings and the position of v differ. */
  ghost predicate Elsewhere(s: State, s': State, v: nat, touched: set<nat>) {
    && |s'.rings| == |s.rings| == |s'.pcs| == |s.pcs|
    && (forall u :: 0 <= u < |s.pcs| && u != v ==> s'.pcs[u] == s.pcs[u])
    && (forall u :: 0 <= u < |s.rings| && u !in touched ==> s'.rings[u] == s.rings[u])
  }

  /** Reading the k-th slot after the head gives the k-th task. */
  lemma LoadIsTask(r: Ring, k: nat)
    requires RingOk(r) && k < |Window(r)|
    ensures Load(r, r.head, k) == Window(r)[k]
  {
    SlotOfWrapped(r.claims, k);
    assert Window(r)[k] == Slot(r, r.claims + k);
  }

  /* ---- __runqget ---- */

  lemma GetFrom(s: State, v: nat, elect: bool) returns (s': State)
    requires Inv(s) && v < |s.pcs| && s.pcs[v] == GetLook(elect)
    ensures Leads(s, v, s') && Elsewhere(s, s', v, {v}) && s'.global == s.global && s'.lock == s.lock
    ensures RingOk(s.rings[v]) && RingOk(s'.rings[v])
    ensures if Tasks(s, v) == []
            then s'.pcs[v] == (if elect then Hungry else Idle) && s'.rings[v] == s.rings[v] && s'.outside == s.outside
            else s'.pcs[v].Idle? && Tasks(s', v) == Tasks(s, v)[1..] && s'.outside == s.outside + multiset{Tasks(s, v)[0]}
  {
    assert PcOk(s, v);
    var r := s.rings[v];
    SameIndex(r.claims, r.puts);
    if Tasks(s, v) == [] {
      s' := Go(s, v, if elect then Hungry else Idle);
      Once(s, v, s');
    } else {
      var task := Tasks(s, v)[0];
      LoadIsTask(r, 0);
      var s1 := Go(s, v, GetPeek(elect, r.head, r.claims));
      var s2 := Go(s, v, GetClaim(elect, r.head, r.claims, task));
      s' := Deliver(Put(s, v, Claimed(r, 1), Idle), v, task);
      Once(s, v, s1);
      assert Go(s1, v, s2.pcs[v]) == s2;
      Once(s1, v, s2);
      assert Put(s2, v, Claimed(r, 1), Idle) == Put(s, v, Claimed(r, 1), Idle);
      Once(s2, v, s');
      Then(s, v, s1, s2);
      Then(s, v, s2, s');
      ClaimEvolves(r, 1);
    }
  }

  /** __runqget gives NULL exactly over an empty ring, and otherwise the oldest task, which leaves it. */
  lemma Get(s: State, v: nat, elect: bool) returns (s': State)
    requires Inv(s) && Enabled(s, StartGet(v, elect))
    ensures Leads(Step(s, StartGet(v, elect)), v, s') && Elsewhere(s, s', v, {v}) && s'.global == s.global && s'.lock == s.lock
    ensures RingOk(s.rings[v]) && RingOk(s'.rings[v])
    ensures if Tasks(s, v) == []
            then s'.pcs[v] == (if elect then Hungry else Idle) && s'.rings[v] == s.rings[v] && s'.outside == s.outside
            else s'.pcs[v].Idle? && Tasks(s', v) == Tasks(s, v)[1..] && s'.outside == s.outside + multiset{Tasks(s, v)[0]}
  {
    StartKeeps(s, StartGet(v, elect));
    s' := GetFrom(Step(s, StartGet(v, elect)), v, elect);
  }

  /* ---- __runqput and __runqputslow ---- */

  /** The state after a put with room. */
  function PutDone(s: State, v: nat, task: Task, ctx: Context): State
    requires Shape(s) && v < |s.pcs|
  {
    Put(s, v, Published(Stored(s.rings[v], 0, task), 1), Return(ctx))
  }

  lemma PutSteps(s: State, v: nat, task: Task, ctx: Context)
    requires Inv(s) && v < |s.pcs| && s.pcs[v] == PutLook(task, ctx) && RingOk(s.rings[v]) && |Tasks(s, v)| < SLOTS
    ensures var (s1, s2) := (Go(s, v, PutStore(task, ctx)), Put(s, v, Stored(s.rings[v], 0, task), PutPublish(task, ctx)));
            && Shape(s1) && Shape(s2)
            && CanAdvance(s, v) && Step(s, Advance(v)) == s1 && Inv(s1)
            && CanAdvance(s1, v) && Step(s1, Advance(v)) == s2 && Inv(s2)
            && CanAdvance(s2, v) && Step(s2, Advance(v)) == PutDone(s, v, task, ctx)
  {
    var r := s.rings[v];
    Distance(r.claims, r.puts);
    PutLookKeeps(s, v);
    var s1 := Go(s, v, PutStore(task, ctx));
    var s2 := Put(s, v, Stored(r, 0, task), PutPublish(task, ctx));
    assert Put(s1, v, Stored(r, 0, task), PutPublish(task, ctx)) == s2;
    PutStoreKeeps(s1, v);
    assert Put(s2, v, Published(s2.rings[v], 1), Return(ctx)) == PutDone(s, v, task, ctx);
  }

  lemma PutLeads(s: State, v: nat, task: Task, ctx: Context)
    requires Inv(s) && v < |s.pcs| && s.pcs[v] == PutLook(task, ctx) && RingOk(s.rings[v]) && |Tasks(s, v)| < SLOTS
    ensures Leads(s, v, PutDone(s, v, task, ctx)) && Inv(PutDone(s, v, task, ctx))
  {
    PutSteps(s, v, task, ctx);
    var s1 := Go(s, v, PutStore(task, ctx));
    var s2 := Put(s, v, Stored(s.rings[v], 0, task), PutPublish(task, ctx));
    Once(s, v, s1);
    Once(s1, v, s2);
    Once(s2, v, PutDone(s, v, task, ctx));
    Then(s, v, s1, s2);
    Then(s, v, s2, PutDone(s, v, task, ctx));
    PutPublishKeeps(s2, v);
  }

  lemma PutEffect(s: State, v: nat, task: Task, ctx: Context)
    requires Shape(s) && v < |s.pcs| && RingOk(s.rings[v]) && |Tasks(s, v)| < SLOTS
    ensures var s' := PutDone(s, v, task, ctx);
            Elsewhere(s, s', v, {v}) && RingOk(s'.rings[v]) && Tasks(s', v) == Tasks(s, v) + [task]
  {
    var r := s.rings[v];
    StoreEvolves(r, 0, task);
    PublishEvolves(Stored(r, 0, task), [task]);
  }

  /** With room, the task becomes the youngest of the ring. */
  lemma PutFast(s: State, v: nat, task: Task, ctx: Context) returns (s': State)
    requires Inv(s) && v < |s.pcs| && s.pcs[v] == PutLook(task, ctx) && RingOk(s.rings[v]) && |Tasks(s, v)| < SLOTS
    ensures Leads(s, v, s') && Elsewhere(s, s', v, {v}) && s'.global == s.global && s'.lock == s.lock && s'.outside == s.outside
    ensures Inv(s') && RingOk(s'.rings[v]) && Tasks(s', v) == Tasks(s, v) + [task] && s'.pcs[v] == Return(ctx)
  {
    PutLeads(s, v, task, ctx);
    PutEffect(s, v, task, ctx);
    s' := PutDone(s, v, task, ctx);
  }

  /** Copying, slot by slot. */
  lemma {:induction false} SpillCopies(s: State, v: nat, task: Task, k: nat) returns (s': State)
    requires Shape(s) && v < |s.pcs| && RingOk(s.rings[v]) && |Tasks(s, v)| >= HALF && k <= HALF
    ensures var r := s.rings[v];
            && s' == Go(s, v, Spill(task, Plain, r.head, r.claims, HALF, Tasks(s, v)[..k]))
            && Leads(Go(s, v, Spill(task, Plain, r.head, r.claims, HALF, [])), v, s')
  {
    var (r, w) := (s.rings[v], Tasks(s, v));
    s' := Go(s, v, Spill(task, Plain, r.head, r.claims, HALF, w[..k]));
    if k > 0 {
      var m := SpillCopies(s, v, task, k - 1);
      LoadIsTask(r, k - 1);
      assert w[..k] == w[..k - 1] + [Load(r, r.head, k - 1)];
      assert Go(m, v, s'.pcs[v]) == s';
      Once(m, v, s');
      Then(Go(s, v, Spill(task, Plain, r.head, r.claims, HALF, [])), v, m, s');
    } else {
      assert w[..0] == [];
      Nothing(s', v);
    }
  }

  lemma SpillClaims(s: State, v: nat, task: Task, temp: seq<Task>) returns (s': State)
    requires Shape(s) && v < |s.pcs| && |temp| == HALF && s.lock.None?
    ensures var (r, chain) := (s.rings[v], temp + [task]);
            && s' == Put(s, v, Claimed(r, HALF), Idle).(global := s.global + chain)
            && Leads(Go(s, v, Spill(task, Plain, r.head, r.claims, HALF, temp)), v, s')
  {
    var (r, chain) := (s.rings[v], temp + [task]);
    var s1 := Go(s, v, Spill(task, Plain, r.head, r.claims, HALF, temp));
    var s2 := Put(s, v, Claimed(r, HALF), SpillLink(Plain, chain));
    assert Put(s1, v, Claimed(r, HALF), SpillLink(Plain, chain)) == s2;
    Once(s1, v, s2);
    s' := Put(s, v, Claimed(r, HALF), Idle).(global := s.global + chain);
    assert Go(s2, v, Idle).(global := s2.global + chain) == s';
    Once(s2, v, s');
    Then(s1, v, s2, s');
  }

  /** From a full ring the older half and then the task go to the end of the global queue. */
  lemma PutSlow(s: State, v: nat, task: Task) returns (s': State)
    requires Inv(s) && v < |s.pcs| && s.pcs[v] == PutLook(task, Plain) && s.lock.None?
    requires RingOk(s.rings[v]) && |Tasks(s, v)| == SLOTS
    ensures Leads(s, v, s') && Elsewhere(s, s', v, {v}) && s'.lock == s.lock && s'.outside == s.outside && s'.pcs[v].Idle?
    ensures RingOk(s'.rings[v]) && Tasks(s', v) == Tasks(s, v)[HALF..]
    ensures s'.global == s.global + (Tasks(s, v)[..HALF] + [task])
  {
    var r := s.rings[v];
    Distance(r.claims, r.puts);
    var s1 := Go(s, v, Spill(task, Plain, r.head, r.claims, HALF, []));
    Once(s, v, s1);
    var s2 := SpillCopies(s, v, task, HALF);
    Then(s, v, s1, s2);
    s' := SpillClaims(s, v, task, Tasks(s, v)[..HALF]);
    Then(s, v, s2, s');
    ClaimEvolves(r, HALF);
  }

  /** __runqput makes the task the youngest of a ring with room; from a full one the older half and then
      the task go to the end of the global queue. */
  lemma PutTask(s: State, v: nat, task: Task) returns (s': State)
    requires Inv(s) && Enabled(s, StartPut(v, task)) && s.lock.None?
    ensures Leads(Step(s, StartPut(v, task)), v, s') && Elsewhere(s, s', v, {v}) && s'.lock == s.lock && s'.pcs[v].Idle?
    ensures s'.outside == s.outside - multiset{task} && RingOk(s.rings[v]) && RingOk(s'.rings[v])
    ensures if |Tasks(s, v)| < SLOTS
            then Tasks(s', v) == Tasks(s, v) + [task] && s'.global == s.global
            else Tasks(s', v) == Tasks(s, v)[HALF..] && s'.global == s.global + (Tasks(s, v)[..HALF] + [task])
  {
    var s1 := Step(s, StartPut(v, task));
    EnterKeeps(s, StartPut(v, task));
    assert PcOk(s1, v);
    if |Tasks(s, v)| < SLOTS { s' := PutFast(s1, v, task, Plain); } else { s' := PutSlow(s1, v, task); }
  }

  /** The global queue is a queue: every step leaves it, takes its first task or adds at its end. */
  lemma GlobalIsQueue(s: State, a: Action)
    requires Enabled(s, a)
    ensures var (g, g') := (s.global, Step(s, a).global);
            g' == g || (g != [] && g' == g[1..]) || (|g| < |g'| && g == g'[..|g|])
  {}

  /* ---- The refill of core_elect ---- */

  /** One more task from the global queue into the ring. */
  lemma RefillOne(s: State, v: nat, left: nat, cand: Task) returns (s': State)
    requires Inv(s) && v < |s.pcs| && s.pcs[v] == Refill(left, Some(cand)) && left > 0
    ensures RingOk(s.rings[v]) && s.global != [] && Inv(s')
    ensures Leads(s, v, s') && Elsewhere(s, s', v, {v}) && s'.lock == s.lock && s'.outside == s.outside
    ensures s'.pcs[v] == Refill(left - 1, Some(cand)) && s'.global == s.global[1..]
    ensures RingOk(s'.rings[v]) && Tasks(s', v) == Tasks(s, v) + [s.global[0]]
  {
    assert PcOk(s, v);
    var s1 := Step(s, Advance(v));
    RefillKeeps(s, v);
    Once(s, v, s1);
    s' := PutFast(s1, v, s.global[0], Refilling(left - 1, cand));
    Then(s, v, s1, s');
  }

  lemma FrontAndRest(w: seq<Task>, g: seq<Task>, left: nat)
    requires 0 < left <= |g|
    ensures w + [g[0]] + g[1..][..left - 1] == w + g[..left] && g[1..][left - 1..] == g[left..]
  {
    assert g[..left] == [g[0]] + g[1..][..left - 1];
  }

  lemma {:induction false} RefillRest(s: State, v: nat, left: nat, cand: Task) returns (s': State)
    requires Inv(s) && v < |s.pcs| && s.pcs[v] == Refill(left, Some(cand))
    ensures RingOk(s.rings[v]) && left <= |s.global| && Inv(s')
    ensures Leads(s, v, s') && Elsewhere(s, s', v, {v}) && s'.lock == s.lock && s'.outside == s.outside
    ensures s'.pcs[v] == Refill(0, Some(cand)) && s'.global == s.global[left..]
    ensures RingOk(s'.rings[v]) && Tasks(s', v) == Tasks(s, v) + s.global[..left]
    decreases left
  {
    assert PcOk(s, v);
    if left == 0 {
      s' := s;
      Nothing(s, v);
      assert s.global[..0] == [];
    } else {
      var m := RefillOne(s, v, left, cand);
      s' := RefillRest(m, v, left - 1, cand);
      Then(s, v, m, s');
      FrontAndRest(Tasks(s, v), s.global, left);
    }
  }

  /** How many tasks a refill takes. */
  function Batch(global: seq<Task>): nat {
    if |global| < SLOTS - 1 then |global| else SLOTS - 1
  }

  /** The first task becomes the candidate. */
  lemma ElectFirst(s: State, v: nat) returns (s': State)
    requires Inv(s) && v < |s.pcs| && s.pcs[v].Hungry? && s.lock.None? && s.global != []
    ensures var s1 := Step(s, StartRefill(v));
            && Leads(s1, v, s') && Inv(s')
            && s' == Go(s, v, Refill(Batch(s.global) - 1, Some(s.global[0]))).(lock := Some(v), global := s.global[1..])
    ensures RingOk(s.rings[v]) && Tasks(s, v) == []
  {
    assert PcOk(s, v);
    var s1 := Step(s, StartRefill(v));
    LockKeeps(s, StartRefill(v));
    s' := Go(s, v, Refill(Batch(s.global) - 1, Some(s.global[0]))).(lock := Some(v), global := s.global[1..]);
    assert Go(s1, v, s'.pcs[v]).(global := s.global[1..]) == s';
    RefillKeeps(s1, v);
    Once(s1, v, s');
  }

  lemma ElectLast(s: State, v: nat, cand: Task) returns (s': State)
    requires Shape(s) && v < |s.pcs| && s.pcs[v] == Refill(0, Some(cand))
    ensures Leads(s, v, s') && s' == Deliver(s, v, cand).(lock := None)
  {
    s' := Deliver(s, v, cand).(lock := None);
    Once(s, v, s');
  }

  /** A refill by core_elect takes the oldest tasks of the global queue, at most 511: the first to run, the
      others, in order, into the empty ring. */
  lemma ElectFromGlobal(s: State, v: nat) returns (s': State)
    requires Inv(s) && v < |s.pcs| && s.pcs[v].Hungry? && s.lock.None? && s.global != []
    ensures Leads(Step(s, StartRefill(v)), v, s') && Elsewhere(s, s', v, {v}) && s'.lock.None? && s'.pcs[v].Idle?
    ensures s'.outside == s.outside + multiset{s.global[0]} && s'.global == s.global[Batch(s.global)..]
    ensures RingOk(s'.rings[v]) && Tasks(s', v) == s.global[1..Batch(s.global)]
  {
    var (n, s1) := (Batch(s.global), Step(s, StartRefill(v)));
    var s2 := ElectFirst(s, v);
    var s3 := RefillRest(s2, v, n - 1, s.global[0]);
    Then(s1, v, s2, s3);
    s' := ElectLast(s3, v, s.global[0]);
    Then(s1, v, s3, s');
    AllButFirst(s.global, n);
  }

  lemma AllButFirst(g: seq<Task>, n: nat)
    requires 0 < n <= |g|
    ensures g[1..][n - 1..] == g[n..] && [] + g[1..][..n - 1] == g[1..n]
  {}

  /* ---- __runqgrab and __runqsteal ---- */

  /** What a thief takes of n tasks. */
  function Share(n: nat): nat { n - n / 2 }

  lemma {:induction false} GrabCopies(s: State, v: nat, w: nat, n: nat, k: nat) returns (s': State)
    requires Shape(s) && v < |s.pcs| && w < |s.rings| && RingOk(s.rings[w]) && k <= n <= |Tasks(s, w)| && 0 < n
    ensures var r := s.rings[w];
            && s' == Go(s, v, GrabCopy(w, r.head, r.claims, n, Tasks(s, w)[..k]))
            && Leads(Go(s, v, GrabCopy(w, r.head, r.claims, n, [])), v, s')
  {
    var (r, t) := (s.rings[w], Tasks(s, w));
    s' := Go(s, v, GrabCopy(w, r.head, r.claims, n, t[..k]));
    if k > 0 {
      var m := GrabCopies(s, v, w, n, k - 1);
      LoadIsTask(r, k - 1);
      assert t[..k] == t[..k - 1] + [Load(r, r.head, k - 1)];
      assert Go(m, v, s'.pcs[v]) == s';
      Once(m, v, s');
      Then(Go(s, v, GrabCopy(w, r.head, r.claims, n, [])), v, m, s');
    } else {
      assert t[..0] == [];
      Nothing(s', v);
    }
  }

  /** The two reads of the victim's indices. */
  lemma GrabLooks(s: State, v: nat, w: nat)
    requires Inv(s) && v < |s.pcs| && s.pcs[v] == GrabHead(w)
    ensures w < |s.rings| && RingOk(s.rings[w]) && Share(|Tasks(s, w)|) <= HALF
    ensures var (n, r) := (Share(|Tasks(s, w)|), s.rings[w]);
            Leads(s, v, Go(s, v, if n == 0 then Hungry else GrabCopy(w, r.head, r.claims, n, [])))
  {
    assert PcOk(s, v) && PcOk(s, s.pcs[v].victim);
    var r := s.rings[w];
    Distance(r.claims, r.puts);
    var n := Share(|Tasks(s, w)|);
    var s1 := Go(s, v, GrabTail(w, r.head, r.claims));
    var s2 := Go(s, v, if n == 0 then Hungry else GrabCopy(w, r.head, r.claims, n, []));
    Once(s, v, s1);
    assert Go(s1, v, s2.pcs[v]) == s2;
    Once(s1, v, s2);
    Then(s, v, s1, s2);
  }

  /** Looking at the victim: nothing to take exactly if its ring is empty, else the larger half of it. */
  lemma Grab(s: State, v: nat, w: nat) returns (s': State)
    requires Inv(s) && v < |s.pcs| && s.pcs[v] == GrabHead(w)
    ensures w < |s.rings| && RingOk(s.rings[w]) && Leads(s, v, s')
    ensures var (n, r) := (Share(|Tasks(s, w)|), s.rings[w]);
            && n <= HALF
            && s' == Go(s, v, if n == 0 then Hungry else GrabCopy(w, r.head, r.claims, n, Tasks(s, w)[..n]))
  {
    GrabLooks(s, v, w);
    var (n, r) := (Share(|Tasks(s, w)|), s.rings[w]);
    if n == 0 {
      s' := Go(s, v, Hungry);
    } else {
      s' := GrabCopies(s, v, w, n, n);
      Then(s, v, Go(s, v, GrabCopy(w, r.head, r.claims, n, [])), s');
    }
  }

  /** The ring after the first k of temp were written behind its tail. */
  function StoredAll(r: Ring, temp: seq<Task>, k: nat): (r': Ring)
    requires |r.slots| == SLOTS && k <= |temp|
    ensures |r'.slots| == SLOTS && r'.tail == r.tail && r'.head == r.head && r'.claims == r.claims && r'.puts == r.puts
  {
    if k == 0 then r else Stored(StoredAll(r, temp, k - 1), k - 1, temp[k - 1])
  }

  lemma {:induction false} StoredAllHolds(r: Ring, temp: seq<Task>, k: nat)
    requires RingOk(r) && r.puts - r.claims + |temp| <= SLOTS && k <= |temp|
    ensures var r' := StoredAll(r, temp, k);
            RingOk(r') && Window(r') == Window(r) && forall j :: 0 <= j < k ==> Slot(r', r.puts + j) == temp[j]
  {
    if k > 0 {
      StoredAllHolds(r, temp, k - 1);
      StoreEvolves(StoredAll(r, temp, k - 1), k - 1, temp[k - 1]);
    }
  }

  lemma {:induction false} Stashes(s: State, v: nat, task: Task, temp: seq<Task>, k: nat) returns (s': State)
    requires Shape(s) && v < |s.pcs| && k <= |temp|
    ensures s' == Put(s, v, StoredAll(s.rings[v], temp, k), Stash(task, temp, k))
    ensures Leads(Go(s, v, Stash(task, temp, 0)), v, s')
  {
    var s0 := Go(s, v, Stash(task, temp, 0));
    s' := Put(s, v, StoredAll(s.rings[v], temp, k), Stash(task, temp, k));
    if k > 0 {
      var m := Stashes(s, v, task, temp, k - 1);
      assert Put(m, v, StoredAll(s.rings[v], temp, k), Stash(task, temp, k)) == s';
      Once(m, v, s');
      Then(s0, v, m, s');
    } else {
      assert s' == s0;
      Nothing(s', v);
    }
  }

  function StashDone(s: State, v: nat, task: Task, temp: seq<Task>): State
    requires Shape(s) && v < |s.pcs|
  {
    Deliver(Put(s, v, Published(StoredAll(s.rings[v], temp, |temp|), |temp|), Idle), v, task)
  }

  lemma StashLeads(s: State, v: nat, task: Task, temp: seq<Task>)
    requires Shape(s) && v < |s.pcs|
    ensures Leads(Go(s, v, Stash(task, temp, 0)), v, StashDone(s, v, task, temp))
  {
    var m := Stashes(s, v, task, temp, |temp|);
    assert Deliver(Put(m, v, Published(m.rings[v], |temp|), Idle), v, task) == StashDone(s, v, task, temp);
    Once(m, v, StashDone(s, v, task, temp));
    Then(Go(s, v, Stash(task, temp, 0)), v, m, StashDone(s, v, task, temp));
  }

  lemma RingStash(r: Ring, temp: seq<Task>)
    requires RingOk(r) && Window(r) == [] && |temp| <= SLOTS
    ensures var r' := Published(StoredAll(r, temp, |temp|), |temp|); RingOk(r') && Window(r') == temp
  {
    StoredAllHolds(r, temp, |temp|);
    PublishEvolves(StoredAll(r, temp, |temp|), temp);
    assert [] + temp == temp;
  }

  lemma StashEffect(s: State, v: nat, task: Task, temp: seq<Task>)
    requires Shape(s) && v < |s.pcs| && RingOk(s.rings[v]) && Tasks(s, v) == [] && |temp| <= SLOTS
    ensures var s' := StashDone(s, v, task, temp); Elsewhere(s, s', v, {v}) && RingOk(s'.rings[v]) && Tasks(s', v) == temp
  {
    RingStash(s.rings[v], temp);
  }

  /** The stash of the stolen tasks into the empty ring of the thief. */
  lemma StashAll(s: State, v: nat, task: Task, temp: seq<Task>) returns (s': State)
    requires Shape(s) && v < |s.pcs| && RingOk(s.rings[v]) && Tasks(s, v) == [] && |temp| <= SLOTS
    ensures Leads(Go(s, v, Stash(task, temp, 0)), v, s') && Elsewhere(s, s', v, {v}) && s'.pcs[v].Idle?
    ensures s'.global == s.global && s'.lock == s.lock && s'.outside == s.outside + multiset{task}
    ensures RingOk(s'.rings[v]) && Tasks(s', v) == temp
  {
    StashLeads(s, v, task, temp);
    StashEffect(s, v, task, temp);
    s' := StashDone(s, v, task, temp);
  }

  /** The successful CAS of the thief, when it has copied one task... */
  lemma TakeOne(s: State, v: nat, w: nat, t: seq<Task>) returns (s': State)
    requires Shape(s) && v < |s.pcs| && w < |s.rings| && v != w && |t| == 1
    ensures var r := s.rings[w];
            && Leads(Go(s, v, GrabCopy(w, r.head, r.claims, 1, t)), v, s')
            && s' == Deliver(s.(rings := s.rings[w := Claimed(r, 1)]), v, t[0])
  {
    var r := s.rings[w];
    var m := Go(s, v, GrabCopy(w, r.head, r.claims, 1, t));
    s' := Deliver(s.(rings := s.rings[w := Claimed(r, 1)]), v, t[0]);
    assert Deliver(m.(rings := m.rings[w := Claimed(r, 1)]), v, t[0]) == s';
    Once(m, v, s');
  }

  /** ...or more. */
  lemma TakeMany(s: State, v: nat, w: nat, t: seq<Task>) returns (s': State)
    requires Shape(s) && v < |s.pcs| && w < |s.rings| && v != w && |t| > 1
    ensures var (r, n) := (s.rings[w], |t|);
            && Leads(Go(s, v, GrabCopy(w, r.head, r.claims, n, t)), v, s')
            && s' == Go(s.(rings := s.rings[w := Claimed(r, n)]), v, Stash(t[n - 1], t[..n - 1], 0))
  {
    var (r, n) := (s.rings[w], |t|);
    var m := Go(s, v, GrabCopy(w, r.head, r.claims, n, t));
    s' := Go(s.(rings := s.rings[w := Claimed(r, n)]), v, Stash(t[n - 1], t[..n - 1], 0));
    assert Go(m.(rings := m.rings[w := Claimed(r, n)]), v, Stash(t[n - 1], t[..n - 1], 0)) == s';
    Once(m, v, s');
  }

  /** What the victim and the thief look like at the end of a steal of t. */
  ghost predicate Stolen(s: State, v: nat, w: nat, t: seq<Task>, s': State) {
    && Elsewhere(s, s', v, {v, w}) && v < |s.pcs| && w < |s.rings| && v != w && t != []
    && s'.global == s.global && s'.lock == s.lock && s'.pcs[v].Idle? && s'.outside == s.outside + multiset{t[|t| - 1]}
    && s'.rings[w] == Claimed(s.rings[w], |t|) && RingOk(s'.rings[v]) && Tasks(s', v) == t[..|t| - 1]
  }

  lemma KeepOne(s: State, v: nat, w: nat, t: seq<Task>) returns (s': State)
    requires Shape(s) && v < |s.pcs| && w < |s.rings| && v != w && |t| == 1 && RingOk(s.rings[v]) && Tasks(s, v) == []
    ensures Leads(Go(s, v, GrabCopy(w, s.rings[w].head, s.rings[w].claims, 1, t)), v, s') && Stolen(s, v, w, t, s')
  {
    s' := TakeOne(s, v, w, t);
    assert t[..0] == [];
  }

  lemma KeepMany(s: State, v: nat, w: nat, t: seq<Task>) returns (s': State)
    requires Shape(s) && v < |s.pcs| && w < |s.rings| && v != w && 1 < |t| <= HALF
    requires RingOk(s.rings[v]) && Tasks(s, v) == []
    ensures Leads(Go(s, v, GrabCopy(w, s.rings[w].head, s.rings[w].claims, |t|, t)), v, s') && Stolen(s, v, w, t, s')
  {
    var n := |t|;
    var s1 := s.(rings := s.rings[w := Claimed(s.rings[w], n)]);
    var m1 := TakeMany(s, v, w, t);
    s' := StashAll(s1, v, t[n - 1], t[..n - 1]);
    Then(Go(s, v, GrabCopy(w, s.rings[w].head, s.rings[w].claims, n, t)), v, m1, s');
  }

  lemma StealSome(s: State, v: nat, w: nat) returns (s': State)
    requires Inv(s) && v < |s.pcs| && s.pcs[v] == GrabHead(w) && w < |s.rings| && RingOk(s.rings[w]) && Tasks(s, w) != []
    ensures Leads(s, v, s') && Stolen(s, v, w, Tasks(s, w)[..Share(|Tasks(s, w)|)], s')
  {
    assert PcOk(s, v);
    var t := Tasks(s, w)[..Share(|Tasks(s, w)|)];
    var m := Grab(s, v, w);
    if |t| == 1 { s' := KeepOne(s, v, w, t); } else { s' := KeepMany(s, v, w, t); }
    Then(s, v, m, s');
  }

  lemma StealFrom(s: State, v: nat, w: nat) returns (s': State)
    requires Inv(s) && v < |s.pcs| && s.pcs[v] == GrabHead(w)
    ensures w < |s.rings| && v != w && RingOk(s.rings[w]) && Leads(s, v, s') && Elsewhere(s, s', v, {v, w})
    ensures s'.global == s.global && s'.lock == s.lock
    ensures var (t, n) := (Tasks(s, w), Share(|Tasks(s, w)|));
            if t == [] then s' == Go(s, v, Hungry)
            else
              && s'.pcs[v].Idle? && s'.outside == s.outside + multiset{t[n - 1]}
              && RingOk(s'.rings[w]) && Tasks(s', w) == t[n..]
              && RingOk(s'.rings[v]) && Tasks(s', v) == t[..n - 1]
  {
    assert PcOk(s, v) && PcOk(s, s.pcs[v].victim);
    var t := Tasks(s, w);
    var n := Share(|t|);
    if t == [] {
      s' := Grab(s, v, w);
    } else {
      s' := StealSome(s, v, w);
      ClaimEvolves(s.rings[w], n);
      assert t[..n][..n - 1] == t[..n - 1];
    }
  }

  /** Stealing: NULL exactly if the victim has no task. Otherwise the larger half of its tasks, the oldest,
      leave it; the youngest of these runs and the others, in order, fill the thief's empty ring. */
  lemma Steal(s: State, v: nat, w: nat) returns (s': State)
    requires Inv(s) && Enabled(s, StartSteal(v, w))
    ensures Leads(Step(s, StartSteal(v, w)), v, s') && Elsewhere(s, s', v, {v, w}) && s'.global == s.global && s'.lock == s.lock
    ensures RingOk(s.rings[w]) && RingOk(s'.rings[w]) && RingOk(s'.rings[v])
    ensures var (t, n) := (Tasks(s, w), Share(|Tasks(s, w)|));
            && |t| <= 2 * n <= |t| + 1
            && if t == [] then s'.pcs[v].Hungry? && s'.rings == s.rings && s'.outside == s.outside
               else
                 && s'.pcs[v].Idle? && s'.outside == s.outside + multiset{t[n - 1]}
                 && Tasks(s', w) == t[n..] && Tasks(s', v) == t[..n - 1]
  {
    StartKeeps(s, StartSteal(v, w));
    assert PcOk(s, v) && PcOk(s, w);
    s' := StealFrom(Step(s, StartSteal(v, w)), v, w);
  }

  /* ---- core_elect ---- */

  /** VPU v makes these calls in turn, each of them followed to its return. */
  ghost predicate Calls(s: State, v: nat, calls: seq<Action>, s': State)
    decreases |calls|
  {
    if calls == [] then s == s'
    else
      && Enabled(s, calls[0]) && !calls[0].Add? && calls[0].v == v
      && exists m :: Leads(Step(s, calls[0]), v, m) && Calls(m, v, calls[1..], s')
  }

  lemma CallFirst(s: State, v: nat, a: Action, m: State, calls: seq<Action>, s': State)
    requires Enabled(s, a) && !a.Add? && a.v == v && Leads(Step(s, a), v, m) && Calls(m, v, calls, s')
    ensures Calls(s, v, [a] + calls, s')
  {
    assert ([a] + calls)[1..] == calls;
  }

  lemma CallOnce(s: State, v: nat, a: Action, s': State)
    requires Enabled(s, a) && !a.Add? && a.v == v && Leads(Step(s, a), v, s')
    ensures Calls(s, v, [a], s')
  {
    CallFirst(s, v, a, s', [], s');
    assert [a] + [] == [a];
  }

  /** A refill that comes too late finds nothing, and the search goes on. */
  lemma ElectFromNothing(s: State, v: nat)
    requires Inv(s) && v < |s.pcs| && s.pcs[v].Hungry? && s.lock.None? && s.global == []
    ensures Leads(Step(s, StartRefill(v)), v, s)
  {
    var s1 := Step(s, StartRefill(v));
    assert Go(s1, v, Hungry).(lock := None) == s;
    Once(s1, v, s);
  }

  /** What core_elect comes back with: the oldest task of the own ring, else the first of the global queue,
      else the youngest of those stolen from w. */
  ghost function Elected(s: State, v: nat, w: nat): Option<Task>
    requires v < |s.rings| && w < |s.rings| && RingOk(s.rings[v]) && RingOk(s.rings[w])
  {
    if Tasks(s, v) != [] then Some(Tasks(s, v)[0])
    else if s.global != [] then Some(s.global[0])
    else if Tasks(s, w) != [] then Some(Tasks(s, w)[Share(|Tasks(s, w)|) - 1])
    else None
  }

  /** The calls of core_elect: one to the own ring, then one to the global queue if it has anything, else
      one to the victim. */
  ghost function Searches(s: State, v: nat, w: nat): seq<Action>
    requires v < |s.rings| && w < |s.rings| && RingOk(s.rings[v]) && RingOk(s.rings[w])
  {
    [StartGet(v, true)] + if Tasks(s, v) != [] then [] else AfterGet(s, v, w)
  }

  ghost function AfterGet(s: State, v: nat, w: nat): seq<Action>
    requires w < |s.rings| && RingOk(s.rings[w])
  {
    if s.global != [] then [StartRefill(v)]
    else [StartSteal(v, w)] + if Tasks(s, w) != [] then [] else [GiveUp(v)]
  }

  /** The state after core_elect. */
  ghost predicate HasElected(s: State, v: nat, w: nat, s': State)
    requires v < |s.rings| && w < |s.rings| && RingOk(s.rings[v]) && RingOk(s.rings[w])
  {
    && Elsewhere(s, s', v, {v, w}) && v < |s'.pcs| && s'.pcs[v].Idle? && s'.lock == s.lock
    && match Elected(s, v, w)
       case Some(t) => s'.outside == s.outside + multiset{t}
       case None => s'.outside == s.outside && s'.global == s.global && s'.rings == s.rings
  }

  lemma Robs(s: State, v: nat, w: nat) returns (s': State)
    requires Inv(s) && v < |s.pcs| && w < |s.pcs| && v != w && s.pcs[v].Hungry? && s.lock.None? && s.global == []
    requires RingOk(s.rings[v]) && RingOk(s.rings[w]) && Tasks(s, v) == []
    ensures Calls(s, v, AfterGet(s, v, w), s') && HasElected(s, v, w, s')
  {
    var s1 := Steal(s, v, w);
    if Tasks(s, w) == [] {
      s' := Go(s1, v, Idle);
      Nothing(s', v);
      CallOnce(s1, v, GiveUp(v), s');
      CallFirst(s, v, StartSteal(v, w), s1, [GiveUp(v)], s');
    } else {
      s' := s1;
      CallOnce(s, v, StartSteal(v, w), s');
      assert [StartSteal(v, w)] + [] == [StartSteal(v, w)];
    }
  }

  /** The search with victim w, when the own ring is empty. */
  lemma Search(s: State, v: nat, w: nat) returns (s': State)
    requires Inv(s) && v < |s.pcs| && w < |s.pcs| && v != w && s.pcs[v].Hungry? && s.lock.None?
    requires RingOk(s.rings[v]) && RingOk(s.rings[w]) && Tasks(s, v) == []
    ensures Calls(s, v, AfterGet(s, v, w), s') && HasElected(s, v, w, s')
  {
    if s.global != [] {
      s' := ElectFromGlobal(s, v);
      CallOnce(s, v, StartRefill(v), s');
    } else {
      s' := Robs(s, v, w);
    }
  }

  /** core_elect when the own ring has a task. */
  lemma ElectOwn(s: State, v: nat, w: nat) returns (s': State)
    requires Inv(s) && Enabled(s, StartGet(v, true)) && w < |s.pcs|
    requires RingOk(s.rings[v]) && RingOk(s.rings[w]) && Tasks(s, v) != []
    ensures Calls(s, v, [StartGet(v, true)], s') && HasElected(s, v, w, s')
  {
    s' := Get(s, v, true);
    CallOnce(s, v, StartGet(v, true), s');
  }

  /** Its first call when it has none. */
  lemma GoHungry(s: State, v: nat)
    requires Inv(s) && Enabled(s, StartGet(v, true)) && RingOk(s.rings[v]) && Tasks(s, v) == []
    ensures Leads(Step(s, StartGet(v, true)), v, Go(s, v, Hungry)) && Inv(Go(s, v, Hungry))
  {
    var s1 := Get(s, v, true);
    assert s1 == Go(s, v, Hungry);
    assert PcOk(s, v);
    GoKeeps(s, v, Hungry);
  }

  /** core_elect as a whole: the search order, and NULL exactly if the own ring, the global queue and the
      victim have nothing. */
  lemma Elect(s: State, v: nat, w: nat) returns (s': State)
    requires Inv(s) && Enabled(s, StartGet(v, true)) && s.lock.None? && w < |s.pcs| && w != v
    ensures RingOk(s.rings[v]) && RingOk(s.rings[w])
    ensures Calls(s, v, Searches(s, v, w), s') && HasElected(s, v, w, s')
  {
    assert PcOk(s, v) && PcOk(s, w);
    if Tasks(s, v) == [] {
      var s1 := Go(s, v, Hungry);
      GoHungry(s, v);
      s' := Search(s1, v, w);
      CallFirst(s, v, StartGet(v, true), s1, AfterGet(s, v, w), s');
    } else {
      s' := ElectOwn(s, v, w);
      assert Searches(s, v, w) == [StartGet(v, true)];
    }
  }

  /** A CAS that fails because somebody else claimed first changes nothing, and the operation starts over
      with the same request. */
  lemma FailedCasRetries(s: State, v: nat)
    requires CanAdvance(s, v)
    requires match s.pcs[v]
             case GetClaim(_, h, _, _) => s.rings[v].head != h
             case Spill(_, _, h, _, n, temp) => |temp| >= n && s.rings[v].head != h
             case GrabCopy(w, h, _, n, temp) => |temp| == n && s.rings[w].head != h
             case _ => false
    ensures Step(s, Advance(v)) ==
            Go(s, v, match s.pcs[v]
                     case GetClaim(elect, _, _, _) => GetLook(elect)
                     case Spill(task, ctx, _, _, _, _) => PutLook(task, ctx)
                     case GrabCopy(w, _, _, _, _) => GrabHead(w)
                     case _ => Idle)
  {}

  /** Over runs, whatever the others do: a thief that looks at the victim while its head is fresh gives up
      exactly over an empty ring and otherwise goes for the larger half. */
  lemma GrabIsExact(trace: seq<State>, actions: seq<Action>, i: nat)
    requires IsRun(trace, actions) && i < |actions| && actions[i].Advance?
    requires var s := trace[i]; var pc := s.pcs[actions[i].v]; pc.GrabTail? && s.rings[pc.victim].claims == pc.seen
    ensures var (s, v) := (trace[i], actions[i].v);
            var pc := s.pcs[v];
            && RingOk(s.rings[pc.victim])
            && var t := Window(s.rings[pc.victim]);
               if t == [] then trace[i + 1].pcs[v].Hungry?
               else trace[i + 1].pcs[v] == GrabCopy(pc.victim, pc.h, pc.seen, Share(|t|), []) && |t| <= 2 * Share(|t|) <= |t| + 1
  {
    NothingLostOrDuplicated(trace, actions, i, 0);
    var (s, v) := (trace[i], actions[i].v);
    assert PcOk(s, v);
    var r := s.rings[s.pcs[v].victim];
    Distance(r.claims, r.puts);
  }
}
