/** The timer heap of src/time.c: an array heap ordered by `when` whose entries know their index, with
    insertion, deletion by index and the batch that fires all due timers. */
module TimerHeap {
  import opened Common

  /* ---- Heap order on the sequence of deadlines ---- */

  function Parent(j: nat): nat
    requires j > 0
  {
    (j - 1) / 2
  }

  /** Slot j is not earlier than its parent. */
  predicate Le(k: seq<nat>, j: nat) {
    0 < j < |k| ==> k[Parent(j)] <= k[j]
  }

  predicate Heap(k: seq<nat>) {
    forall j :: 0 < j < |k| ==> Le(k, j)
  }

  predicate HeapBut(k: seq<nat>, cur: nat) {
    forall j :: 0 < j < |k| && j != cur ==> Le(k, j)
  }

  /** The children of cur are not earlier than the parent of cur. */
  predicate Bridged(k: seq<nat>, cur: nat) {
    forall j :: 0 < j < |k| && Parent(j) == cur && 0 < cur ==> k[Parent(cur)] <= k[j]
  }

  /** Only the pairs that involve cur may be out of order. */
  predicate Around(k: seq<nat>, cur: nat) {
    Bridged(k, cur) && forall j :: 0 < j < |k| && j != cur && Parent(j) != cur ==> Le(k, j)
  }

  function Swapped(k: seq<nat>, i: nat, j: nat): seq<nat>
    requires i < |k| && j < |k|
  {
    k[i := k[j]][j := k[i]]
  }

  /** The child that a downward sift compares with: the earlier of the two. */
  function EarlierChild(k: seq<nat>, cur: nat): nat
    requires 2 * cur + 1 < |k|
  {
    var (left, right) := (2 * cur + 1, 2 * cur + 2);
    if right >= |k| then left else if k[left] < k[right] then left else right
  }

  lemma ChildrenOf(cur: nat, j: nat)
    requires j > 0
    ensures Parent(j) == cur <==> j == 2 * cur + 1 || j == 2 * cur + 2
  {}

  /** After a downward swap, for each slot. */
  lemma DownStepAt(k: seq<nat>, cur: nat, j: nat)
    requires Around(k, cur) && 2 * cur + 1 < |k| && k[EarlierChild(k, cur)] < k[cur] && 0 < j < |k|
    ensures var (c, k') := (EarlierChild(k, cur), Swapped(k, cur, EarlierChild(k, cur)));
            if Parent(j) == c then k'[cur] <= k'[j] else Le(k', j)
  {
    var c := EarlierChild(k, cur);
    ChildrenOf(cur, c);
    ChildrenOf(cur, j);
    ChildrenOf(c, j);
    assert j != cur && Parent(j) != cur ==> Le(k, j);
  }

  lemma DownStep(k: seq<nat>, cur: nat)
    requires Around(k, cur) && 2 * cur + 1 < |k| && k[EarlierChild(k, cur)] < k[cur]
    ensures var (c, k') := (EarlierChild(k, cur), Swapped(k, cur, EarlierChild(k, cur)));
            Around(k', c) && Le(k', c) && Le(k', cur) && Le(k, cur)
  {
    var c := EarlierChild(k, cur);
    var k' := Swapped(k, cur, c);
    ChildrenOf(cur, c);
    assert Parent(c) == cur && Parent(c) != c;
    forall j | 0 < j < |k| ensures if Parent(j) == c then k'[cur] <= k'[j] else Le(k', j) {
      DownStepAt(k, cur, j);
    }
    if cur > 0 { ChildrenOf(c, cur); }
  }

  lemma DownDone(k: seq<nat>, cur: nat)
    requires Around(k, cur) && (2 * cur + 1 < |k| ==> k[cur] <= k[EarlierChild(k, cur)])
    ensures HeapBut(k, cur)
  {
    forall j | 0 < j < |k| && j != cur ensures Le(k, j) {
      ChildrenOf(cur, j);
    }
  }

  lemma UpStep(k: seq<nat>, cur: nat)
    requires HeapBut(k, cur) && Bridged(k, cur) && 0 < cur < |k| && k[cur] < k[Parent(cur)]
    ensures var k' := Swapped(k, cur, Parent(cur)); HeapBut(k', Parent(cur)) && Bridged(k', Parent(cur))
  {
    var p := Parent(cur);
    var k' := Swapped(k, cur, p);
    forall j | 0 < j < |k| && j != p ensures Le(k', j) {
      assert j != cur ==> Le(k, j);
    }
    forall j | 0 < j < |k| && Parent(j) == p && 0 < p ensures k'[Parent(p)] <= k'[j] {
      assert Le(k, p);
      assert j != cur ==> Le(k, j);
    }
  }

  /** What __down_adjust_heap does to the deadlines. */
  function SiftDown(k: seq<nat>, cur: nat): (r: seq<nat>)
    ensures |r| == |k|
    decreases |k| - cur
  {
    if 2 * cur + 1 >= |k| then k
    else
      var c := EarlierChild(k, cur);
      if k[c] < k[cur] then SiftDown(Swapped(k, cur, c), c) else k
  }

  /** What __up_adjust_heap does to them. */
  function SiftUp(k: seq<nat>, cur: nat): (r: seq<nat>)
    ensures |r| == |k|
    decreases cur
  {
    if cur == 0 || cur >= |k| then k
    else if k[cur] < k[Parent(cur)] then SiftUp(Swapped(k, cur, Parent(cur)), Parent(cur)) else k
  }

  /** After sifting down, the only pair that can be out of order is cur's with its parent, and it is so
      exactly if it was before. */
  lemma {:induction false} SiftDownOrders(k: seq<nat>, cur: nat)
    requires Around(k, cur)
    ensures var r := SiftDown(k, cur);
            && HeapBut(r, cur) && (Le(r, cur) <==> Le(k, cur))
            && forall i :: 0 <= i < cur && i < |k| ==> r[i] == k[i]
    decreases |k| - cur
  {
    if 2 * cur + 1 < |k| && k[EarlierChild(k, cur)] < k[cur] {
      DownStep(k, cur);
      SiftDownOrders(Swapped(k, cur, EarlierChild(k, cur)), EarlierChild(k, cur));
    } else {
      DownDone(k, cur);
    }
  }

  lemma {:induction false} SiftUpOrders(k: seq<nat>, cur: nat)
    requires HeapBut(k, cur) && Bridged(k, cur)
    ensures Heap(SiftUp(k, cur))
    decreases cur
  {
    if 0 < cur < |k| && k[cur] < k[Parent(cur)] {
      UpStep(k, cur);
      SiftUpOrders(Swapped(k, cur, Parent(cur)), Parent(cur));
    }
  }

  lemma {:induction false} RootIsEarliest(k: seq<nat>, j: nat)
    requires Heap(k) && j < |k|
    ensures k[0] <= k[j]
  {
    if j > 0 {
      assert Le(k, j);
      RootIsEarliest(k, Parent(j));
    }
  }

  function WithLastAt(k: seq<nat>, i: nat): seq<nat>
    requires i < |k|
  {
    k[i := k[|k| - 1]][..|k| - 1]
  }

  /** The deadlines after a deletion at slot i: the last one moves in and is sifted down only. */
  function Removed(k: seq<nat>, i: nat): seq<nat>
    requires i < |k|
  {
    SiftDown(WithLastAt(k, i), i)
  }

  lemma LastAtAround(k: seq<nat>, i: nat)
    requires Heap(k) && i < |k|
    ensures Around(WithLastAt(k, i), i)
  {
    var m := WithLastAt(k, i);
    forall j | 0 < j < |m| && j != i && Parent(j) != i ensures Le(m, j) {
      assert Le(k, j);
    }
    forall j | 0 < j < |m| && Parent(j) == i && 0 < i ensures m[Parent(i)] <= m[j] {
      assert Le(k, j) && Le(k, i);
    }
  }

  /** Deleting from a heap leaves a heap exactly if the slot was the last one or the root, or the timer
      that moved in is not earlier than the slot's parent. */
  lemma DeleteKeepsHeapIff(k: seq<nat>, i: nat)
    requires Heap(k) && i < |k|
    ensures Heap(Removed(k, i)) <==> i == |k| - 1 || i == 0 || k[Parent(i)] <= k[|k| - 1]
  {
    var m := WithLastAt(k, i);
    LastAtAround(k, i);
    SiftDownOrders(m, i);
    assert Heap(Removed(k, i)) ==> Le(Removed(k, i), i);
  }

  /** The condition can fail: here the timer moved into slot 3 is earlier than the one above it. */
  lemma DeleteCanBreakHeap()
    ensures var k := [0, 10, 1, 11, 12, 2, 3];
            Heap(k) && Removed(k, 3) == [0, 10, 1, 3, 12, 2] && !Heap(Removed(k, 3))
  {
    var k := [0, 10, 1, 11, 12, 2, 3];
    var m := WithLastAt(k, 3);
    assert m == [0, 10, 1, 3, 12, 2];
    assert !Le(m, 3);
  }

  /** A heap whose root is put off is a heap again after sifting down. */
  lemma RearmedIsHeap(k: seq<nat>, w: nat)
    requires Heap(k) && 0 < |k|
    ensures Heap(SiftDown(k[0 := w], 0))
  {
    forall j | 0 < j < |k| && Parent(j) != 0 ensures Le(k[0 := w], j) {
      assert Le(k, j);
    }
    SiftDownOrders(k[0 := w], 0);
  }

  /* ---- What a firing pass needs ---- */

  predicate DueAt(k: seq<nat>, j: nat, now: nat) {
    0 < j < |k| && k[j] <= now ==> k[Parent(j)] <= now
  }

  /** Above every due timer there are only due ones. A heap is like this for every `now`. */
  predicate DueUp(k: seq<nat>, now: nat) {
    forall j :: 0 < j < |k| ==> DueAt(k, j, now)
  }

  lemma HeapIsDueUp(k: seq<nat>, now: nat)
    requires Heap(k)
    ensures DueUp(k, now)
  {
    forall j | 0 < j < |k| ensures DueAt(k, j, now) { assert Le(k, j); }
  }

  /** If the root is not due, nothing is. */
  lemma {:induction false} RootDecides(k: seq<nat>, now: nat, j: nat)
    requires DueUp(k, now) && j < |k| && k[0] > now
    ensures k[j] > now
  {
    if j > 0 {
      RootDecides(k, now, Parent(j));
      assert DueAt(k, j, now);
    }
  }

  /** Only the children of cur may be due below something that is not. */
  predicate DueAround(k: seq<nat>, cur: nat, now: nat) {
    && (forall j :: 0 < j < |k| && Parent(j) != cur ==> DueAt(k, j, now))
    && (forall j :: 0 < j < |k| && Parent(j) == cur && 0 < cur && k[j] <= now ==> k[Parent(cur)] <= now)
  }

  lemma DueStep(k: seq<nat>, cur: nat, now: nat)
    requires DueAround(k, cur, now) && 2 * cur + 1 < |k| && k[EarlierChild(k, cur)] < k[cur]
    ensures DueAround(Swapped(k, cur, EarlierChild(k, cur)), EarlierChild(k, cur), now)
  {
    var c := EarlierChild(k, cur);
    var k' := Swapped(k, cur, c);
    ChildrenOf(cur, c);
    forall j | 0 < j < |k| && Parent(j) != c ensures DueAt(k', j, now) {
      ChildrenOf(cur, j);
      assert Parent(j) != cur ==> DueAt(k, j, now);
    }
    forall j | 0 < j < |k| && Parent(j) == c && k'[j] <= now ensures k'[Parent(c)] <= now {
      ChildrenOf(c, j);
      ChildrenOf(cur, j);
      assert DueAt(k, j, now);
    }
  }

  lemma {:induction false} SiftDownDue(k: seq<nat>, cur: nat, now: nat)
    requires DueAround(k, cur, now)
    ensures DueUp(SiftDown(k, cur), now)
    decreases |k| - cur
  {
    if 2 * cur + 1 < |k| && k[EarlierChild(k, cur)] < k[cur] {
      DueStep(k, cur, now);
      SiftDownDue(Swapped(k, cur, EarlierChild(k, cur)), EarlierChild(k, cur), now);
    } else {
      forall j | 0 < j < |k| ensures DueAt(k, j, now) { ChildrenOf(cur, j); }
    }
  }

  /** Firing the root, for good or until w, leaves the rest as the next round needs it. */
  lemma NextRoundIsDueUp(k: seq<nat>, w: nat, now: nat)
    requires DueUp(k, now) && 0 < |k|
    ensures DueUp(Removed(k, 0), now) && DueUp(SiftDown(k[0 := w], 0), now)
  {
    forall j | 0 < j < |k| && Parent(j) != 0 ensures DueAt(k[0 := w], j, now) { assert DueAt(k, j, now); }
    SiftDownDue(k[0 := w], 0, now);
    var m := WithLastAt(k, 0);
    forall j | 0 < j < |m| && Parent(j) != 0 ensures DueAt(m, j, now) { assert DueAt(k, j, now); }
    SiftDownDue(m, 0, now);
  }

  /** The deadlines after the root's turn: gone, or put off to w. */
  function Fired(k: seq<nat>, w: Option<nat>): seq<nat>
    requires 0 < |k|
  {
    match w
    case None => Removed(k, 0)
    case Some(d) => SiftDown(k[0 := d], 0)
  }

  lemma FiredKeeps(k: seq<nat>, w: Option<nat>, now: nat)
    requires 0 < |k|
    ensures (Heap(k) ==> Heap(Fired(k, w))) && (DueUp(k, now) ==> DueUp(Fired(k, w), now))
  {
    var d := if w.None? then 0 else w.value;
    if Heap(k) {
      DeleteKeepsHeapIff(k, 0);
      RearmedIsHeap(k, d);
    }
    if DueUp(k, now) { NextRoundIsDueUp(k, d, now); }
  }

  /** The deadlines that a firing pass over one-shot timers leaves. */
  function Passed(k: seq<nat>, now: nat): seq<nat>
    decreases |k|
  {
    if k == [] || k[0] > now then k else Passed(Removed(k, 0), now)
  }

  /** After a deletion from a heap a pass at `now` finds all due timers if the freed slot was last or the
      root, the timer that moved in is not due or the slot's parent is; otherwise, and only then, a due
      timer is left below one that is not. */
  lemma DeleteKeepsDueUpIff(k: seq<nat>, i: nat, now: nat)
    requires Heap(k) && i < |k|
    ensures DueUp(Removed(k, i), now) <==> i == |k| - 1 || i == 0 || now < k[|k| - 1] || k[Parent(i)] <= now
  {
    var (m, r) := (WithLastAt(k, i), Removed(k, i));
    LastAtAround(k, i);
    SiftDownOrders(m, i);
    if i < |m| { SiftDownTop(m, i); }
    forall j | 0 < j < |r| && j != i ensures DueAt(r, j, now) { assert Le(r, j); }
    if 0 < i < |m| {
      assert r[Parent(i)] == k[Parent(i)];
      assert DueUp(r, now) <==> DueAt(r, i, now);
      if 2 * i + 1 < |m| { assert Le(k, EarlierChild(m, i)) && Le(k, i); }
    }
  }

  /** What a downward sift leaves in the slot it started from. */
  lemma SiftDownTop(k: seq<nat>, cur: nat)
    requires Around(k, cur) && cur < |k|
    ensures SiftDown(k, cur)[cur] ==
            if 2 * cur + 1 < |k| && k[EarlierChild(k, cur)] < k[cur] then k[EarlierChild(k, cur)] else k[cur]
  {
    if 2 * cur + 1 < |k| && k[EarlierChild(k, cur)] < k[cur] {
      DownStep(k, cur);
      SiftDownOrders(Swapped(k, cur, EarlierChild(k, cur)), EarlierChild(k, cur));
    }
  }

  /** It does happen: after this deletion a pass at 5 stops with a timer due at 3 still pending. */
  lemma PassCanMissTimer()
    ensures var k := [0, 10, 2, 11, 12, 20, 3];
            && Heap(k) && Removed(k, 3) == [0, 10, 2, 3, 12, 20]
            && Passed(Removed(k, 3), 5) == [10, 3, 20, 12]
  {
    var k := [0, 10, 2, 11, 12, 20, 3];
    assert WithLastAt(k, 3) == [0, 10, 2, 3, 12, 20];
    var a := [0, 10, 2, 3, 12, 20];
    assert WithLastAt(a, 0) == [20, 10, 2, 3, 12];
    assert Swapped([20, 10, 2, 3, 12], 0, 2) == [2, 10, 20, 3, 12];
    var b := [2, 10, 20, 3, 12];
    assert Removed(a, 0) == b;
    assert WithLastAt(b, 0) == [12, 10, 20, 3];
    assert Swapped([12, 10, 20, 3], 0, 1) == [10, 12, 20, 3];
    assert Swapped([10, 12, 20, 3], 1, 3) == [10, 3, 20, 12];
    assert Removed(b, 0) == [10, 3, 20, 12];
  }

  /* ---- The manager ---- */

  class Timer {
    var when: nat
    var period: nat     // 0 for a one-shot timer
    var index: int

    constructor (when: nat, period: nat, index: int)
      ensures this.when == when && this.period == period && this.index == index
    {
      this.when, this.period, this.index := when, period, index;
    }
  }

  /** Timers were fired at most once each, and only due ones. */
  ghost predicate FiredOnce(fired: seq<Timer>, due: map<Timer, nat>, now: nat) {
    && (forall i :: 0 <= i < |fired| ==> fired[i] in due && due[fired[i]] <= now)
    && (forall i, j :: 0 <= i < j < |fired| ==> fired[i] != fired[j])
  }

  /** They were fired in the order of their deadlines, none while an earlier one was left behind. */
  ghost predicate InTurn(fired: seq<Timer>, due: map<Timer, nat>)
    requires forall i :: 0 <= i < |fired| ==> fired[i] in due
  {
    && (forall i, j :: 0 <= i < j < |fired| ==> due[fired[i]] <= due[fired[j]])
    && (forall i, t :: 0 <= i < |fired| && t in due && t !in fired ==> due[fired[i]] <= due[t])
  }

  lemma {:induction false} Distinct(fired: seq<Timer>)
    requires forall i, j :: 0 <= i < j < |fired| ==> fired[i] != fired[j]
    ensures |set t | t in fired| == |fired|
  {
    if fired != [] {
      var n := |fired| - 1;
      Distinct(fired[..n]);
      assert (set t | t in fired) == (set t | t in fired[..n]) + {fired[n]};
    }
  }

  lemma FiredAreFew(fired: seq<Timer>, due: map<Timer, nat>, now: nat)
    requires FiredOnce(fired, due, now)
    ensures |fired| <= |due|
  {
    var all := set t | t in fired;
    Distinct(fired);
    assert all <= due.Keys;
    assert due.Keys == all + (due.Keys - all);
  }

  lemma FireOneMore(fired: seq<Timer>, due: map<Timer, nat>, now: nat, t: Timer)
    requires FiredOnce(fired, due, now) && t in due && t !in fired && due[t] <= now
    ensures FiredOnce(fired + [t], due, now)
    ensures InTurn(fired, due) && (forall u :: u in due && u !in fired ==> due[t] <= due[u]) ==> InTurn(fired + [t], due)
  {}

  /* ---- The array ---- */

  /** The first n slots hold timers, all of them from `all`. */
  ghost predicate Holds(a: array<Timer?>, n: nat, all: set<Timer>)
    reads a
  {
    n <= a.Length && forall i :: 0 <= i < n ==> a[i] != null && a[i] in all
  }

  /** The timer is in the slot it knows. */
  ghost predicate InSlot(a: array<Timer?>, n: nat, t: Timer)
    reads a, t
  {
    n <= a.Length && 0 <= t.index < n && a[t.index] == t
  }

  /** Back-indices: each slot's timer knows its slot, and each timer of `all` is in the slot it knows. */
  ghost predicate Indexed(a: array<Timer?>, n: nat, all: set<Timer>)
    reads a, all
  {
    && Holds(a, n, all) && (forall i :: 0 <= i < n ==> a[i].index == i)
    && (forall t {:trigger InSlot(a, n, t)} :: t in all ==> InSlot(a, n, t))
  }

  /** The deadlines, slot by slot. */
  ghost function Keys(a: array<Timer?>, n: nat, all: set<Timer>): (k: seq<nat>)
    requires Holds(a, n, all)
    reads a, all
    ensures |k| == n && forall i :: 0 <= i < n ==> k[i] == a[i].when
  {
    seq(n, i requires 0 <= i < n && Holds(a, n, all) reads a, all => a[i].when)
  }

  lemma Slotted(a: array<Timer?>, n: nat, all: set<Timer>, t: Timer)
    requires Indexed(a, n, all) && t in all
    ensures InSlot(a, n, t)
  {}

  /** With exact back-indices every slot has a timer of its own. */
  lemma {:induction false} AsManyAsSlots(a: array<Timer?>, n: nat, all: set<Timer>)
    requires Indexed(a, n, all)
    ensures |all| == n
  {
    if n > 0 {
      forall t | t in all && t != a[n - 1] ensures InSlot(a, n - 1, t) { assert InSlot(a, n, t); }
      AsManyAsSlots(a, n - 1, all - {a[n - 1]});
    } else {
      if t :| t in all { Slotted(a, n, all, t); }
    }
  }

  lemma CopyIsIndexed(a: array<Timer?>, b: array<Timer?>, n: nat, all: set<Timer>)
    requires Indexed(a, n, all) && n <= b.Length && forall i :: 0 <= i < n ==> b[i] == a[i]
    ensures Indexed(b, n, all) && Keys(b, n, all) == Keys(a, n, all)
  {
    forall t | t in all ensures InSlot(b, n, t) { assert InSlot(a, n, t); }
  }

  /** When a fired timer is due again. */
  ghost function Later(t: Timer, now: nat): Option<nat>
    reads t
  {
    if t.period == 0 then None else Some(now + t.period)
  }

  class Manager {
    var timers: array<Timer?>
    var size: nat
    ghost var pending: set<Timer>

    /** __exchange_heap */
    method Exchange(e0: nat, e1: nat, ghost n: nat, ghost all: set<Timer>)
      requires Holds(timers, n, all) && e0 < n && e1 < n && e0 != e1
      modifies timers, all`index
      ensures Holds(timers, n, all) && (old(Indexed(timers, n, all)) ==> Indexed(timers, n, all))
      ensures Keys(timers, n, all) == Swapped(old(Keys(timers, n, all)), e0, e1)
      ensures forall i :: 0 <= i < timers.Length && i != e0 && i != e1 ==> timers[i] == old(timers[i])
    {
      var tmp := timers[e0];
      timers[e0] := timers[e1];
      timers[e1] := tmp;
      timers[e0].index := e0;
      timers[e1].index := e1;
      if old(Indexed(timers, n, all)) {
        forall t | t in all ensures InSlot(timers, n, t) { assert old(InSlot(timers, n, t)); }
      }
    }

    /** __down_adjust_heap */
    method Down(cur: nat, n: nat, ghost all: set<Timer>)
      requires Indexed(timers, n, all)
      modifies timers, all`index
      ensures Indexed(timers, n, all) && Keys(timers, n, all) == SiftDown(old(Keys(timers, n, all)), cur)
      ensures forall i :: n <= i < timers.Length ==> timers[i] == old(timers[i])
      decreases n - cur
    {
      var left := 2 * cur + 1;
      var right := left + 1;
      if left >= n { return; }
      var tmp := if right >= n then left else if timers[left].when < timers[right].when then left else right;
      if timers[tmp].when < timers[cur].when {
        Exchange(cur, tmp, n, all);
        Down(tmp, n, all);
      }
    }

    /** __up_adjust_heap */
    method Up(cur: nat, ghost n: nat, ghost all: set<Timer>)
      requires Holds(timers, n, all) && cur < n
      modifies timers, all`index
      ensures Holds(timers, n, all) && (old(Indexed(timers, n, all)) ==> Indexed(timers, n, all))
      ensures Keys(timers, n, all) == SiftUp(old(Keys(timers, n, all)), cur)
      ensures forall i :: n <= i < timers.Length ==> timers[i] == old(timers[i])
      decreases cur
    {
      if cur == 0 { return; }
      var parent := (cur - 1) / 2;
      if timers[cur].when < timers[parent].when {
        Exchange(cur, parent, n, all);
        Up(parent, n, all);
      }
    }

    ghost predicate Valid()
      reads this, timers, pending
    {
      0 < timers.Length && Indexed(timers, size, pending)
    }

    /** The deadlines of the pending timers, slot by slot. */
    ghost function Deadlines(): seq<nat>
      requires Holds(timers, size, pending)
      reads this, timers, pending
    {
      Keys(timers, size, pending)
    }

    constructor ()
      ensures Valid() && pending == {} && fresh(timers)
    {
      timers := new Timer?[32](_ => null);
      size, pending := 0, {};
    }

    /** The reallocation in coroc_add_intertimer: twice the room, same contents. */
    method Grow()
      requires Valid()
      modifies this`timers
      ensures fresh(timers) && timers.Length == 2 * old(timers.Length)
      ensures Valid() && Deadlines() == old(Deadlines())
    {
      var bigger := new Timer?[2 * timers.Length](_ => null);
      forall i | 0 <= i < timers.Length { bigger[i] := timers[i]; }
      CopyIsIndexed(timers, bigger, size, pending);
      timers := bigger;
    }

    /** Puts a timer into the first free slot. */
    method Append(timer: Timer, ghost all: set<Timer>)
      requires Valid() && size < timers.Length && all == pending + {timer}
      modifies timers, timer`index
      ensures Holds(timers, size + 1, all) && (timer !in pending ==> Indexed(timers, size + 1, all))
      ensures Keys(timers, size + 1, all) == old(Deadlines()) + [timer.when]
    {
      timers[size] := timer;
      timer.index := size;
      if timer !in pending {
        forall t | t in all ensures InSlot(timers, size + 1, t) { assert t != timer ==> old(InSlot(timers, size, t)); }
      }
    }

    /** coroc_add_intertimer. A timer that is pending already is stored a second time, and exactly then the
        back-indices are lost. */
    method Add(timer: Timer)
      requires Valid()
      modifies this, timers, pending`index, timer`index
      ensures 0 < timers.Length && size == old(size) + 1 && pending == old(pending) + {timer}
      ensures Holds(timers, size, pending) && Deadlines() == SiftUp(old(Deadlines()) + [timer.when], old(size))
      ensures Valid() <==> timer !in old(pending)
      ensures timers == old(timers) || fresh(timers)
    {
      if timers.Length == size { Grow(); }
      Store(timer, size + 1, pending + {timer}, Deadlines() + [timer.when]);
    }

    method Store(timer: Timer, ghost n: nat, ghost all: set<Timer>, ghost k: seq<nat>)
      requires Valid() && size < timers.Length && n == size + 1
      requires all == pending + {timer} && k == Deadlines() + [timer.when]
      modifies this`size, this`pending, timers, pending`index, timer`index
      ensures timers == old(timers) && size == n && pending == all
      ensures Holds(timers, n, all) && Keys(timers, n, all) == SiftUp(k, n - 1)
      ensures Indexed(timers, n, all) <==> timer !in old(pending)
    {
      AsManyAsSlots(timers, size, pending);
      Append(timer, all);
      Enter(n, all, k);
      if Indexed(timers, n, all) { AsManyAsSlots(timers, n, all); }
    }

    /** Sifts up the appended timer, which then counts as pending. */
    method Enter(ghost n: nat, ghost all: set<Timer>, ghost k: seq<nat>)
      requires n == size + 1 && Holds(timers, n, all) && k == Keys(timers, n, all)
      modifies this`size, this`pending, timers, all`index
      ensures timers == old(timers) && size == n && pending == all
      ensures Holds(timers, n, all) && (old(Indexed(timers, n, all)) ==> Indexed(timers, n, all))
      ensures Keys(timers, n, all) == SiftUp(k, n - 1)
    {
      Up(size, n, all);
      size, pending := size + 1, all;
    }

    /** All timers but the one in slot i are indexed. */
    ghost predicate IndexedBut(i: nat)
      reads this, timers, pending
    {
      && i < size && Holds(timers, size, pending)
      && (forall j :: 0 <= j < size && j != i ==> timers[j].index == j && timers[j] != timers[i])
      && (forall t {:trigger InSlot(timers, size, t)} :: t in pending && t != timers[i] ==> InSlot(timers, size, t))
    }

    /** Overwrites slot i with the last pending timer. */
    method FillFromLast(i: nat, ghost rest: set<Timer>)
      requires IndexedBut(i) && rest == pending - {timers[i]}
      modifies timers, pending`index
      ensures Indexed(timers, size - 1, rest)
      ensures Keys(timers, size - 1, rest) == WithLastAt(old(Deadlines()), i)
      ensures i < size - 1 ==> old(timers[i]).index == old(timers[i].index)
    {
      timers[i] := timers[size - 1];
      timers[i].index := i;
      forall t | t in rest ensures InSlot(timers, size - 1, t) { assert old(InSlot(timers, size, t)); }
    }

    method Shrink(i: nat, ghost n: nat, ghost rest: set<Timer>, ghost k: seq<nat>)
      requires 0 < size == n + 1 <= timers.Length && Indexed(timers, n, rest) && k == Keys(timers, n, rest)
      modifies this`size, this`pending, timers, rest`index
      ensures timers == old(timers) && size == n && pending == rest
      ensures Valid() && Deadlines() == SiftDown(k, i)
    {
      Down(i, size - 1, rest);
      size, pending := size - 1, rest;
    }

    /** coroc_del_intertimer. The index of a timer that is not pending can be anything. */
    method Delete(timer: Timer) returns (ret: int)
      requires Valid()
      modifies this`size, this`pending, timers, pending`index
      ensures Valid() && (ret == 0 || ret == -1) && timers == old(timers)
      ensures ret == 0 <==> timer in old(pending)
      ensures pending == old(pending) - {timer}
      ensures ret == -1 ==> Deadlines() == old(Deadlines())
      ensures ret == 0 ==> old(0 <= timer.index < size && timers[timer.index] == timer)
      ensures ret == 0 ==> Deadlines() == Removed(old(Deadlines()), old(timer.index))
    {
      assert timer in pending ==> InSlot(timers, size, timer);
      var i := timer.index;
      if i < 0 || i >= size || timer != timers[i] { return -1; }
      ghost var rest := pending - {timer};
      FillFromLast(i, rest);
      Shrink(i, size - 1, rest, Keys(timers, size - 1, rest));
      ret := 0;
    }

    ghost function Root(): Timer
      requires Holds(timers, size, pending) && 0 < size
      reads this, timers
    {
      timers[0]
    }

    /** The root's turn when it is a one-shot: it leaves with index -1 and the last timer replaces it. */
    method DropRoot(ghost now: nat) returns (t: Timer)
      requires Valid() && 0 < size && timers[0].period == 0
      modifies this`size, this`pending, timers, pending`index
      ensures timers == old(timers) && t == old(timers[0]) && t.index == -1
      ensures Valid() && pending == old(pending) - {t} && t in old(pending)
      ensures Deadlines() == Fired(old(Deadlines()), Later(t, now))
    {
      t := timers[0];
      timers[0].index := -1;
      assert Deadlines() == old(Deadlines());
      forall u | u in pending && u != t ensures InSlot(timers, size, u) { assert old(InSlot(timers, size, u)); }
      if size > 1 {
        ghost var rest := pending - {t};
        FillFromLast(0, rest);
        Shrink(0, size - 1, rest, Keys(timers, size - 1, rest));
      } else {
        size, pending := size - 1, pending - {t};
        assert Deadlines() == [] && Removed(old(Deadlines()), 0) == [];
      }
    }

    method PutOff(now: nat)
      requires Valid() && 0 < size
      modifies Root()`when
      ensures Valid() && Root().when == now + Root().period
      ensures Deadlines() == old(Deadlines())[0 := Root().when]
    {
      timers[0].when := now + timers[0].period;
      forall u | u in pending ensures InSlot(timers, size, u) { assert old(InSlot(timers, size, u)); }
    }

    /** The root's turn when it is periodic: it is armed again from now. */
    method RearmRoot(now: nat) returns (t: Timer)
      requires Valid() && 0 < size && timers[0].period > 0
      modifies timers, pending`index, Root()`when
      ensures t == old(timers[0]) && t in pending && t.when == now + t.period && Valid()
      ensures forall u :: u in pending && u != t ==> u.when == old(u.when)
      ensures Deadlines() == Fired(old(Deadlines()), Later(t, now))
    {
      t := timers[0];
      PutOff(now);
      Down(0, size, pending);
    }

    lemma RootIsFirst()
      requires Valid() && 0 < size && Heap(Deadlines())
      ensures forall u :: u in pending ==> timers[0].when <= u.when
    {
      forall u | u in pending ensures timers[0].when <= u.when {
        assert InSlot(timers, size, u);
        RootIsEarliest(Deadlines(), u.index);
      }
    }

    lemma RootIsLastDue(now: nat)
      requires Valid() && 0 < size && DueUp(Deadlines(), now) && now < timers[0].when
      ensures forall u :: u in pending ==> now < u.when
    {
      forall u | u in pending ensures now < u.when {
        assert InSlot(timers, size, u);
        RootDecides(Deadlines(), now, u.index);
      }
    }

    /** One round of the firing loop, on the root. */
    method FireRoot(now: nat) returns (t: Timer)
      requires Valid() && 0 < size
      modifies this`size, this`pending, timers, pending`index, Root()`when
      ensures timers == old(timers) && Valid() && t == old(timers[0]) && t in old(pending)
      ensures Deadlines() == Fired(old(Deadlines()), Later(t, now))
      ensures t.period == 0 ==> pending == old(pending) - {t} && t.index == -1 && t.when == old(t.when)
      ensures t.period > 0 ==> pending == old(pending) && t.when == now + t.period
      ensures forall u :: u in pending && u != t ==> u.when == old(u.when)
    {
      if timers[0].period == 0 {
        t := DropRoot(now);
      } else {
        t := RearmRoot(now);
      }
    }

    /** What a fired timer looks like after its turn. */
    ghost predicate Treated(t: Timer, now: nat)
      reads this, t
    {
      if t.period == 0 then t.index == -1 && t !in pending else t.when == now + t.period && t in pending
    }

    /** The state between two rounds, given the deadlines of the timers that were pending at the start. */
    ghost predicate Midway(fired: seq<Timer>, due: map<Timer, nat>, now: nat)
      reads this, timers, pending, due.Keys
    {
      && Valid() && pending <= due.Keys && FiredOnce(fired, due, now)
      && forall t :: t in due ==> if t in fired then Treated(t, now) else t in pending && t.when == due[t]
    }

    /** The root is the one to fire next. */
    lemma RootIsNext(fired: seq<Timer>, due: map<Timer, nat>, now: nat)
      requires Midway(fired, due, now) && 0 < size && timers[0].when <= now
      ensures timers[0] in due && timers[0] !in fired && FiredOnce(fired + [timers[0]], due, now)
      ensures Heap(Deadlines()) && InTurn(fired, due) ==> InTurn(fired + [timers[0]], due)
    {
      if Heap(Deadlines()) { RootIsFirst(); }
      assert timers[0] in pending;
      FireOneMore(fired, due, now, timers[0]);
    }

    method Round(now: nat, ghost fired: seq<Timer>, ghost due: map<Timer, nat>) returns (t: Timer)
      requires Midway(fired, due, now) && 0 < size && timers[0].when <= now
      modifies this`size, this`pending, timers, pending`index, Root()`when
      ensures timers == old(timers) && t in due && t !in fired
      ensures Midway(fired + [t], due, now)
      ensures Deadlines() == Fired(old(Deadlines()), Later(t, now))
      ensures Heap(old(Deadlines())) && InTurn(fired, due) ==> InTurn(fired + [t], due)
    {
      RootIsNext(fired, due, now);
      t := FireRoot(now);
      forall u | u in due && u != t ensures if u in fired then Treated(u, now) else u in pending && u.when == due[u] {
        assert u in fired ==> old(Treated(u, now));
      }
    }

    /** What a round adds to that, by the deadlines k at the start. */
    ghost predicate OnCourse(fired: seq<Timer>, due: map<Timer, nat>, k: seq<nat>, now: nat)
      requires Midway(fired, due, now)
      reads this, timers, pending, due.Keys
    {
      && (DueUp(k, now) ==> DueUp(Deadlines(), now))
      && (Heap(k) ==> Heap(Deadlines()) && InTurn(fired, due))
      && ((forall t :: t in due ==> t.period == 0) ==> Passed(Deadlines(), now) == Passed(k, now))
    }

    method RoundOnCourse(now: nat, ghost fired: seq<Timer>, ghost due: map<Timer, nat>, ghost k: seq<nat>) returns (t: Timer)
      requires Midway(fired, due, now) && OnCourse(fired, due, k, now) && 0 < size && timers[0].when <= now
      modifies this`size, this`pending, timers, pending`index, Root()`when
      ensures timers == old(timers) && t in due && t !in fired
      ensures Midway(fired + [t], due, now) && OnCourse(fired + [t], due, k, now)
    {
      ghost var before := Deadlines();
      t := Round(now, fired, due);
      FiredKeeps(before, Later(t, now), now);
    }

    /** The firing loop of coroc_intertimer_routine. The callbacks do not touch the heap. From any array it
        terminates, fires due timers only, each once, and stops only at a root that is not due. If every
        due timer has only due ones above it, it fires all that are due; from a heap, in order. */
    method Fire(now: nat) returns (fired: seq<Timer>)
      requires Valid()
      modifies this`size, this`pending, timers, pending`index, pending`when
      ensures Valid() && timers == old(timers) && pending <= old(pending)
      ensures FiredOnce(fired, old(map t | t in pending :: t.when), now)
      ensures forall t :: t in old(pending) ==>
        if t in fired then Treated(t, now) else t in pending && t.when == old(t.when)
      ensures size > 0 ==> now < timers[0].when
      ensures old(DueUp(Deadlines(), now)) || old(Heap(Deadlines())) ==>
        && (forall t :: t in old(pending) ==> (t in fired <==> old(t.when) <= now))
        && (forall t :: t in pending ==> now < t.when)
      ensures old(Heap(Deadlines())) ==> Heap(Deadlines()) && InTurn(fired, old(map t | t in pending :: t.when))
      ensures (forall t :: t in old(pending) ==> t.period == 0) ==> Deadlines() == Passed(old(Deadlines()), now)
    {
      fired := [];
      ghost var due := map t | t in pending :: t.when;
      ghost var k := Deadlines();
      while size > 0 && timers[0].when <= now
        invariant timers == old(timers) && Midway(fired, due, now) && OnCourse(fired, due, k, now)
        decreases |due| - |fired|
      {
        var t := RoundOnCourse(now, fired, due, k);
        fired := fired + [t];
        FiredAreFew(fired, due, now);
      }
      AtTheEnd(fired, due, k, now);
    }

    lemma AtTheEnd(fired: seq<Timer>, due: map<Timer, nat>, k: seq<nat>, now: nat)
      requires Midway(fired, due, now) && OnCourse(fired, due, k, now) && (size > 0 ==> now < timers[0].when)
      ensures DueUp(k, now) || Heap(k) ==>
        && (forall t :: t in due ==> (t in fired <==> due[t] <= now))
        && (forall t :: t in pending ==> now < t.when)
      ensures (forall t :: t in due ==> t.period == 0) ==> Deadlines() == Passed(k, now)
    {
      if Heap(k) { HeapIsDueUp(k, now); }
      if size > 0 && DueUp(k, now) { RootIsLastDue(now); }
      if size == 0 { AsManyAsSlots(timers, size, pending); }
    }
  }

  /** Adding to a heap gives a heap. */
  lemma AddKeepsHeap(k: seq<nat>, w: nat)
    requires Heap(k)
    ensures Heap(SiftUp(k + [w], |k|))
  {
    forall j | 0 < j < |k| ensures Le(k + [w], j) {
      assert Le(k, j);
    }
    SiftUpOrders(k + [w], |k|);
  }
}
