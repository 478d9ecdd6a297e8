/** Exactly when an insertion into the cuckoo table of src/hash.c returns, and how soon.

    The recursion of __add has no bound of its own: it evicts, doubles and evicts again.  It returns if and
    only if no set of keys, the new one included, is larger than the number of hash values it has in the
    two tables together.  One direction is counting.  For the other, take tables larger than all hash
    values: if a key comes into hand for the same table a second time, the keys that were in hand in
    between are such a set.  So each key is in hand at most twice. */
module CuckooWalk {
  import opened Common
  import opened CuckooTables

  /* ---- Key sets that do not fit ---- */

  function Hashes(i: nat, keys: set<Key>): set<nat> {
    set k | k in keys :: Hash(i, k)
  }

  predicate Overfull(keys: set<Key>) {
    |keys| > |Hashes(0, keys)| + |Hashes(1, keys)|
  }

  ghost predicate Fits(keys: set<Key>) {
    forall part :: part <= keys ==> !Overfull(part)
  }

  lemma Fewer<T>(small: set<T>, large: set<T>)
    requires small <= large
    ensures |small| <= |large|
  {
    assert large == small + (large - small);
  }

  /** Keys with different hashes are as many as their hashes. */
  lemma {:induction false} AsManyHashes(i: nat, keys: set<Key>)
    requires forall k, l :: k in keys && l in keys && Hash(i, k) == Hash(i, l) ==> k == l
    ensures |Hashes(i, keys)| == |keys|
    decreases |keys|
  {
    if keys != {} {
      var k :| k in keys;
      AsManyHashes(i, keys - {k});
      assert Hashes(i, keys) == Hashes(i, keys - {k}) + {Hash(i, k)};
    }
  }

  /** The keys of one table have different hashes. */
  lemma SideFits(ts: Tables, m: map<Key, Value>, i: nat, keys: set<Key>)
    requires Good(ts) && i < 2 && forall k :: k in keys ==> k in m && Find(ts, i, k) == Full(Entry(k, m[k]))
    ensures |Hashes(i, keys)| == |keys|
  {
    forall k, l | k in keys && l in keys && Hash(i, k) == Hash(i, l) ensures k == l {
      assert Find(ts, i, k) == Find(ts, i, l);
    }
    AsManyHashes(i, keys);
  }

  /** What is stored fits. */
  lemma StoredFits(ts: Tables, m: map<Key, Value>)
    requires Good(ts) && Agrees(ts, m)
    ensures Fits(m.Keys)
  {
    forall part | part <= m.Keys ensures !Overfull(part) {
      var left := set k | k in part && Find(ts, 0, k) == Full(Entry(k, m[k]));
      var right := part - left;
      forall k | k in right ensures Find(ts, 1, k) == Full(Entry(k, m[k])) {
        Sits(ts, m, k);
      }
      SideFits(ts, m, 0, left);
      SideFits(ts, m, 1, right);
      assert Hashes(0, left) <= Hashes(0, part) && Hashes(1, right) <= Hashes(1, part);
      Fewer(Hashes(0, left), Hashes(0, part));
      Fewer(Hashes(1, right), Hashes(1, part));
      assert part == left + right;
    }
  }

  /* ---- The walk of evictions in large tables ---- */

  type Row = map<nat, Entry>

  /** Both tables as maps from hash values, and the entry that is about to go into table `side`. */
  datatype Walk = Walk(m0: Row, m1: Row, hand: Entry, side: nat) {
    function Row(i: nat): Row { if i == 0 then m0 else m1 }

    function Goal(): nat { Hash(side, hand.key) }
  }

  predicate Occupied(w: Walk) {
    w.side < 2 && w.Goal() in w.Row(w.side)
  }

  /** The hand and the occupant of its slot change places. */
  function Next(w: Walk): Walk
    requires Occupied(w)
  {
    var (h, out) := (w.Goal(), w.Row(w.side)[w.Goal()]);
    if w.side == 0 then Walk(w.m0[h := w.hand], w.m1, out, 1) else Walk(w.m0, w.m1[h := w.hand], out, 0)
  }

  /** Rows hold entries at their hash values; all keys, the hand's included, are different and in `keys`. */
  ghost predicate Sound(w: Walk, keys: set<Key>) {
    && w.side < 2 && w.hand.key in keys
    && (forall h :: h in w.m0 ==> Hash(0, w.m0[h].key) == h && w.m0[h].key in keys && w.m0[h].key != w.hand.key)
    && (forall h :: h in w.m1 ==> Hash(1, w.m1[h].key) == h && w.m1[h].key in keys && w.m1[h].key != w.hand.key)
    && (forall h, g :: h in w.m0 && g in w.m1 ==> w.m0[h].key != w.m1[g].key)
  }

  lemma NextIsSound(w: Walk, keys: set<Key>)
    requires Sound(w, keys) && Occupied(w)
    ensures Sound(Next(w), keys)
  {}

  ghost predicate IsWalk(tr: seq<Walk>) {
    |tr| > 0 && forall j :: 0 <= j < |tr| - 1 ==> Occupied(tr[j]) && tr[j + 1] == Next(tr[j])
  }

  lemma {:induction false} WalkIsSound(tr: seq<Walk>, keys: set<Key>, j: nat)
    requires IsWalk(tr) && Sound(tr[0], keys) && j < |tr|
    ensures Sound(tr[j], keys)
  {
    if j > 0 {
      WalkIsSound(tr, keys, j - 1);
      NextIsSound(tr[j - 1], keys);
      assert tr[j - 1 + 1] == Next(tr[j - 1]);
    }
  }

  /* ---- A walk in which an entry comes back has more keys than slots ---- */

  /** The keys that were in hand. */
  function Moved(tr: seq<Walk>): set<Key> {
    set j | 0 <= j < |tr| - 1 :: tr[j].hand.key
  }

  /** The slots of table i that were visited. */
  function Visited(tr: seq<Walk>, i: nat): set<nat> {
    set j | 0 <= j < |tr| - 1 && tr[j].side == i :: tr[j].Goal()
  }

  /** The same key is in hand for the same table at both ends. */
  ghost predicate Circle(tr: seq<Walk>, keys: set<Key>) {
    && IsWalk(tr) && Sound(tr[0], keys) && |tr| > 1
    && tr[0].hand.key == tr[|tr| - 1].hand.key && tr[0].side == tr[|tr| - 1].side
  }

  /** Steps change sides and fill and empty no slot. */
  lemma {:induction false} SameSlots(tr: seq<Walk>, j: nat)
    requires IsWalk(tr) && tr[0].side < 2 && j < |tr|
    ensures tr[j].side < 2 && tr[j].m0.Keys == tr[0].m0.Keys && tr[j].m1.Keys == tr[0].m1.Keys
  {
    if j > 0 {
      SameSlots(tr, j - 1);
      var w := tr[j - 1];
      assert tr[j - 1 + 1] == Next(w);
      assert w.Row(w.side)[w.Goal() := w.hand].Keys == w.Row(w.side).Keys;
    }
  }

  /** A key in hand was taken from its slot on the other side and goes to the one on this side. */
  lemma HashesAreVisited(tr: seq<Walk>, keys: set<Key>, i: nat)
    requires Circle(tr, keys) && i < 2
    ensures Hashes(i, Moved(tr)) <= Visited(tr, i)
  {
    forall k | k in Moved(tr) ensures Hash(i, k) in Visited(tr, i) {
      var j :| 0 <= j < |tr| - 1 && tr[j].hand.key == k;
      if tr[j].side != i {
        var q := if j == 0 then |tr| - 2 else j - 1;
        assert tr[q + 1] == Next(tr[q]) && tr[q + 1].hand.key == k && tr[q + 1].side == tr[j].side;
        WalkIsSound(tr, keys, q);
        assert tr[q].side == i && tr[q].Goal() == Hash(i, k);
      }
    }
  }

  /** What a slot held at the start is still there or has been in hand. */
  lemma {:induction false} StillOrMoved(tr: seq<Walk>, i: nat, h: nat, j: nat)
    requires IsWalk(tr) && i < 2 && tr[0].side < 2 && j < |tr| && h in tr[0].Row(i)
    ensures h in tr[j].Row(i)
    ensures tr[j].Row(i)[h] == tr[0].Row(i)[h] || exists q :: 0 < q <= j && tr[q].hand == tr[0].Row(i)[h]
  {
    SameSlots(tr, j);
    if j > 0 {
      StillOrMoved(tr, i, h, j - 1);
      assert tr[j - 1 + 1] == Next(tr[j - 1]);
      if tr[j - 1].Row(i)[h] != tr[0].Row(i)[h] {
        var q :| 0 < q <= j - 1 && tr[q].hand == tr[0].Row(i)[h];
      } else if tr[j].Row(i)[h] != tr[0].Row(i)[h] {
        assert tr[j].hand == tr[0].Row(i)[h];
      }
    }
  }

  /** The occupants, at the start, of the slots of table i that were visited. */
  function Occupants(tr: seq<Walk>, i: nat): set<Key>
    requires |tr| > 0
  {
    set h | h in Visited(tr, i) && h in tr[0].Row(i) :: tr[0].Row(i)[h].key
  }

  lemma OccupantsMoved(tr: seq<Walk>, keys: set<Key>, i: nat)
    requires Circle(tr, keys) && i < 2
    ensures Occupants(tr, i) <= Moved(tr)
  {
    forall h | h in Visited(tr, i) && h in tr[0].Row(i) ensures tr[0].Row(i)[h].key in Moved(tr) {
      var j :| 0 <= j < |tr| - 1 && tr[j].side == i && tr[j].Goal() == h;
      StillOrMoved(tr, i, h, j);
      assert tr[j + 1] == Next(tr[j]);
      var q :| 0 < q <= j + 1 && tr[q].hand == tr[0].Row(i)[h];
      assert q == |tr| - 1 ==> tr[0].hand.key == tr[q].hand.key;
    }
  }

  lemma OccupantsAreAsMany(tr: seq<Walk>, keys: set<Key>, i: nat)
    requires Circle(tr, keys) && i < 2
    ensures |Occupants(tr, i)| == |Visited(tr, i)|
  {
    var row := tr[0].Row(i);
    forall h | h in Visited(tr, i) ensures h in row {
      var j :| 0 <= j < |tr| - 1 && tr[j].side == i && tr[j].Goal() == h;
      SameSlots(tr, j);
    }
    AsManyHashes(i, Occupants(tr, i));
    assert Hashes(i, Occupants(tr, i)) == Visited(tr, i);
  }

  lemma CircleIsOverfull(tr: seq<Walk>, keys: set<Key>)
    requires Circle(tr, keys)
    ensures Moved(tr) <= keys && Overfull(Moved(tr))
  {
    forall k | k in Moved(tr) ensures k in keys {
      var j :| 0 <= j < |tr| - 1 && tr[j].hand.key == k;
      WalkIsSound(tr, keys, j);
    }
    var (a, b, x) := (Occupants(tr, 0), Occupants(tr, 1), {tr[0].hand.key});
    OccupantsMoved(tr, keys, 0);
    OccupantsMoved(tr, keys, 1);
    OccupantsAreAsMany(tr, keys, 0);
    OccupantsAreAsMany(tr, keys, 1);
    assert a !! b && a !! x && b !! x;
    assert |a + b + x| == |a| + |b| + 1;
    Fewer(a + b + x, Moved(tr));
    HashesAreVisited(tr, keys, 0);
    HashesAreVisited(tr, keys, 1);
    Fewer(Hashes(0, Moved(tr)), Visited(tr, 0));
    Fewer(Hashes(1, Moved(tr)), Visited(tr, 1));
  }

  lemma {:induction false} DistinctAreFew<T>(s: seq<T>, all: set<T>)
    requires forall j :: 0 <= j < |s| ==> s[j] in all
    requires forall i, j :: 0 <= i < j < |s| ==> s[i] != s[j]
    ensures |s| <= |all|
    decreases |s|
  {
    if s != [] {
      var n := |s| - 1;
      DistinctAreFew(s[..n], all - {s[n]});
    }
  }

  /** A stretch of a walk. */
  lemma Stretch(tr: seq<Walk>, keys: set<Key>, i: nat, j: nat)
    requires IsWalk(tr) && Sound(tr[0], keys) && i < j < |tr|
    ensures IsWalk(tr[i..j + 1]) && Sound(tr[i..j + 1][0], keys)
  {
    WalkIsSound(tr, keys, i);
    var part := tr[i..j + 1];
    forall n | 0 <= n < |part| - 1 ensures Occupied(part[n]) && part[n + 1] == Next(part[n]) {
      assert tr[i + n + 1] == Next(tr[i + n]);
    }
  }

  /** Among keys that fit, a key is in hand for each table at most once. */
  lemma NoReturn(tr: seq<Walk>, keys: set<Key>, i: nat, j: nat)
    requires IsWalk(tr) && Sound(tr[0], keys) && Fits(keys) && i < j < |tr|
    ensures tr[i].hand.key != tr[j].hand.key || tr[i].side != tr[j].side
  {
    var part := tr[i..j + 1];
    Stretch(tr, keys, i, j);
    if part[0].hand.key == part[|part| - 1].hand.key && part[0].side == part[|part| - 1].side {
      CircleIsOverfull(part, keys);
    }
  }

  /** So a walk among fitting keys has at most two states for each key. */
  lemma WalksEnd(tr: seq<Walk>, keys: set<Key>)
    requires IsWalk(tr) && Sound(tr[0], keys) && Fits(keys)
    ensures |tr| <= 2 * |keys|
  {
    var hands := seq(|tr|, j requires 0 <= j < |tr| => (tr[j].hand.key, tr[j].side));
    forall j | 0 <= j < |hands| ensures hands[j] in Pairs(keys) { WalkIsSound(tr, keys, j); }
    forall i, j | 0 <= i < j < |hands| ensures hands[i] != hands[j] {
      NoReturn(tr, keys, i, j);
    }
    DistinctAreFew(hands, Pairs(keys));
    PairsAreTwice(keys);
  }

  function WithSide(keys: set<Key>, i: nat): set<(Key, nat)> {
    set k | k in keys :: (k, i)
  }

  function Pairs(keys: set<Key>): set<(Key, nat)> {
    WithSide(keys, 0) + WithSide(keys, 1)
  }

  lemma {:induction false} WithSideIsOnce(keys: set<Key>, i: nat)
    ensures |WithSide(keys, i)| == |keys|
    decreases |keys|
  {
    if keys != {} {
      var k :| k in keys;
      WithSideIsOnce(keys - {k}, i);
      assert WithSide(keys, i) == WithSide(keys - {k}, i) + {(k, i)};
    }
  }

  lemma PairsAreTwice(keys: set<Key>)
    ensures |Pairs(keys)| == 2 * |keys|
  {
    WithSideIsOnce(keys, 0);
    WithSideIsOnce(keys, 1);
    assert WithSide(keys, 0) !! WithSide(keys, 1);
  }

  /* ---- Insertion is such a walk once the tables are large ---- */

  /** More slots than either hash function has values. */
  const LARGE: nat := 9275507

  function RowOf(t: seq<Slot>): Row {
    map p: nat | p < |t| && t[p].Full? :: t[p].entry
  }

  function View(ts: Tables, e: Entry, i: nat): Walk {
    Walk(RowOf(ts.t0), RowOf(ts.t1), e, i)
  }

  lemma LargePosition(i: nat, key: Key, c: nat)
    requires c >= LARGE
    ensures Position(i, key, c) == Hash(i, key)
  {
    var h := Hash(i, key);
    assert h < LARGE;
    Remainder(h, c, 0, h);
  }

  lemma ViewIsSound(ts: Tables, m: map<Key, Value>, e: Entry, i: nat)
    requires Good(ts) && |ts.t0| >= LARGE && Agrees(ts, m) && e.key !in m && i < 2
    ensures Sound(View(ts, e, i), m.Keys + {e.key})
  {
    var w := View(ts, e, i);
    forall h | h in w.m0 ensures Hash(0, w.m0[h].key) == h && w.m0[h].key in m && Binds(m, w.m0[h]) {
      LargePosition(0, w.m0[h].key, |ts.t0|);
      Found(ts, m, 0, w.m0[h].key);
    }
    forall h | h in w.m1 ensures Hash(1, w.m1[h].key) == h && w.m1[h].key in m && Binds(m, w.m1[h]) {
      LargePosition(1, w.m1[h].key, |ts.t0|);
      Found(ts, m, 1, w.m1[h].key);
    }
    forall h, g | h in w.m0 && g in w.m1 ensures w.m0[h].key != w.m1[g].key {
      OneSlotDecides(ts.t0, 0, w.m0[h]);
      OneSlotDecides(ts.t1, 1, w.m1[g]);
      assert Total(ts, w.m0[h]) == One(Binds(m, w.m0[h]));
    }
  }

  lemma RoundIsNext(ts: Tables, e: Entry, i: nat)
    requires Good(ts) && |ts.t0| >= LARGE && i < 2 && Find(ts, i, e.key).Full?
    ensures var (w, tmp) := (View(ts, e, i), Find(ts, i, e.key));
            Occupied(w) && View(Write(ts, i, e.key, Full(e)), tmp.entry, (i + 1) % 2) == Next(w)
  {
    LargePosition(i, e.key, |ts.t0|);
    var (w, ts') := (View(ts, e, i), Write(ts, i, e.key, Full(e)));
    assert RowOf(ts'.Side(i)) == w.Row(i)[w.Goal() := e];
  }

  lemma GrowingKeepsSlot(t: seq<Slot>, i: nat, p: nat)
    requires Placed(t, i) && |t| >= LARGE && p < 2 * |t|
    ensures DoubledSlot(t, i, p) == if p < |t| then t[p] else Empty
  {
    var j := if p < |t| then p else p - |t|;
    Remainder(p, |t|, if p < |t| then 0 else 1, j);
    if t[j].Full? {
      LargePosition(i, t[j].entry.key, |t|);
      LargePosition(i, t[j].entry.key, 2 * |t|);
    }
  }

  lemma GrowingKeepsRow(t: seq<Slot>, i: nat)
    requires Placed(t, i) && |t| >= LARGE
    ensures RowOf(Doubled(t, i)) == RowOf(t)
  {
    var d := Doubled(t, i);
    forall p: nat | p < |d| ensures d[p] == if p < |t| then t[p] else Empty { GrowingKeepsSlot(t, i, p); }
    assert RowOf(d).Keys == RowOf(t).Keys;
  }

  lemma GrowingKeepsView(ts: Tables, e: Entry)
    requires Good(ts) && |ts.t0| >= LARGE
    ensures View(Grown(ts), e, 0) == View(ts, e, 0)
  {
    GrowingKeepsRow(ts.t0, 0);
    GrowingKeepsRow(ts.t1, 1);
  }

  /** A round after which insertion still runs. */
  lemma RoundRuns(ts: Tables, e: Entry, i: nat, k: nat, n: nat)
    requires Good(ts) && i < 2 && k > 0 && Added(ts, e, i, k, n).outcome.Running?
    ensures var (tmp, ts') := (Find(ts, i, e.key), Write(ts, i, e.key, Full(e)));
            && tmp.Full? && tmp.entry.key != e.key && Good(ts') && |ts'.t0| == |ts.t0|
            && Added(ts', tmp.entry, (i + 1) % 2, k - 1, n).outcome.Running?
  {
    WriteKeeps(ts, i, e.key, Full(e));
  }

  lemma NextRound(ts: Tables, e: Entry, i: nat, k: nat, n: nat) returns (ts': Tables, e': Entry, i': nat)
    requires Good(ts) && |ts.t0| >= LARGE && i < 2 && k > 0 && Added(ts, e, i, k, n).outcome.Running?
    ensures Good(ts') && |ts'.t0| >= LARGE && i' == 1 - i && Added(ts', e', i', k - 1, n).outcome.Running?
    ensures Occupied(View(ts, e, i)) && View(ts', e', i') == Next(View(ts, e, i))
  {
    RoundRuns(ts, e, i, k, n);
    RoundIsNext(ts, e, i);
    ts', e', i' := Write(ts, i, e.key, Full(e)), Find(ts, i, e.key).entry, 1 - i;
    assert (i + 1) % 2 == i';
  }

  lemma Prepend(w: Walk, tr: seq<Walk>)
    requires IsWalk(tr) && Occupied(w) && tr[0] == Next(w)
    ensures IsWalk([w] + tr)
  {
    var all := [w] + tr;
    forall j | 0 <= j < |all| - 1 ensures Occupied(all[j]) && all[j + 1] == Next(all[j]) {
      if j > 0 { assert tr[j - 1 + 1] == Next(tr[j - 1]); }
    }
  }

  lemma NextStage(ts: Tables, e: Entry, i: nat, n: nat) returns (ts': Tables)
    requires Good(ts) && |ts.t0| >= LARGE && i < 2 && n > 0 && Added(ts, e, i, 0, n).outcome.Running?
    ensures Good(ts') && |ts'.t0| >= LARGE && Added(ts', e, 0, LIMIT, n - 1).outcome.Running?
    ensures View(ts', e, 0) == View(ts, e, 0)
  {
    GrownKeeps(ts);
    GrowingKeepsView(ts, e);
    ts' := Grown(ts);
  }

  /** Insertion is at this point and still runs. */
  predicate Runs(ts: Tables, e: Entry, i: nat, k: nat, n: nat) {
    Good(ts) && |ts.t0| >= LARGE && i == k % 2 && Added(ts, e, i, k, n).outcome.Running?
  }

  lemma Parity(k: nat)
    requires k > 0
    ensures (k - 1) % 2 == 1 - k % 2
  {}

  /** The next point: after a round, or after a resize. */
  lemma OneOn(ts: Tables, e: Entry, i: nat, k: nat, n: nat) returns (ts': Tables, e': Entry, i': nat, k': nat, n': nat)
    requires Runs(ts, e, i, k, n) && (k > 0 || n > 0)
    ensures Runs(ts', e', i', k', n')
    ensures if k > 0 then k' == k - 1 && n' == n && Occupied(View(ts, e, i)) && View(ts', e', i') == Next(View(ts, e, i))
            else k' == LIMIT && n' == n - 1 && View(ts', e', i') == View(ts, e, i)
  {
    if k > 0 {
      Parity(k);
      ts', e', i' := NextRound(ts, e, i, k, n);
      k', n' := k - 1, n;
    } else {
      ts' := NextStage(ts, e, i, n);
      e', i', k', n' := e, 0, LIMIT, n - 1;
    }
  }

  lemma {:induction false} AddedWalks(ts: Tables, e: Entry, i: nat, k: nat, n: nat) returns (tr: seq<Walk>)
    requires Runs(ts, e, i, k, n)
    ensures IsWalk(tr) && tr[0] == View(ts, e, i) && |tr| > k + LIMIT * n
    decreases n, k
  {
    if k > 0 || n > 0 {
      var ts', e', i', k', n' := OneOn(ts, e, i, k, n);
      tr := AddedWalks(ts', e', i', k', n');
      if k > 0 {
        Prepend(View(ts, e, i), tr);
        tr := [View(ts, e, i)] + tr;
      }
    } else {
      tr := [View(ts, e, i)];
    }
  }

  /** In large tables a third of a resize per key is enough. */
  lemma LargeReturns(ts: Tables, m: map<Key, Value>, e: Entry, k: nat, n: nat)
    requires Good(ts) && |ts.t0| >= LARGE && Agrees(ts, m) && e.key !in m && Fits(m.Keys + {e.key})
    requires k == LIMIT && n >= |m.Keys + {e.key}| / 3
    ensures Added(ts, e, 0, k, n).outcome.Returned?
  {
    if Added(ts, e, 0, k, n).outcome.Running? {
      var tr := AddedWalks(ts, e, 0, k, n);
      ViewIsSound(ts, m, e, 0);
      WalksEnd(tr, m.Keys + {e.key});
    }
  }

  /** Watching beyond the first resize is resizing what was left and watching from there. */
  lemma {:induction false} AddedContinues(ts: Tables, e: Entry, i: nat, k: nat, n: nat)
    requires Good(ts) && i < 2 && n > 0 && Added(ts, e, i, k, 0).outcome.Running?
    ensures var r := Added(ts, e, i, k, 0);
            && Good(r.tables) && |r.tables.t0| == |ts.t0| && Good(Grown(r.tables))
            && Added(ts, e, i, k, n) == Added(Grown(r.tables), r.left, 0, LIMIT, n - 1)
    decreases k
  {
    if k == 0 {
      GrownKeeps(ts);
    } else {
      RoundRuns(ts, e, i, k, 0);
      var ts', e', i' := RoundStays(ts, e, i, k, 0, n);
      AddedContinues(ts', e', i', k - 1, n);
    }
  }

  /** What the first resize starts from. */
  lemma BeforeResize(ts: Tables, m: map<Key, Value>, e: Entry, i: nat, k: nat) returns (m': map<Key, Value>)
    requires Good(ts) && Agrees(ts, m) && e.key !in m && i < 2 && Added(ts, e, i, k, 0).outcome.Running?
    ensures var r := Added(ts, e, i, k, 0);
            && Good(r.tables) && Agrees(r.tables, m') && r.left.key !in m' && m'.Keys + {r.left.key} == m.Keys + {e.key}
  {
    var r := Added(ts, e, i, k, 0);
    AddedConserves(ts, e, i, k, 0);
    StillRunning(ts, m, e, r);
    m' := m[e.key := e.value] - {r.left.key};
  }

  /** The tables, the map and the entry in hand after it. */
  lemma AfterResize(ts: Tables, m: map<Key, Value>, e: Entry, i: nat, k: nat, n: nat)
    returns (ts': Tables, m': map<Key, Value>, e': Entry)
    requires Good(ts) && Agrees(ts, m) && e.key !in m && i < 2 && n > 0 && Added(ts, e, i, k, 0).outcome.Running?
    ensures Good(ts') && |ts'.t0| == 2 * |ts.t0| && Agrees(ts', m') && e'.key !in m'
    ensures m'.Keys + {e'.key} == m.Keys + {e.key}
    ensures Added(ts, e, i, k, n) == Added(ts', e', 0, LIMIT, n - 1)
  {
    var r := Added(ts, e, i, k, 0);
    m' := BeforeResize(ts, m, e, i, k);
    AddedContinues(ts, e, i, k, n);
    ts' := GrownAgrees(r.tables, m');
    e' := r.left;
  }

  lemma GrownAgrees(ts: Tables, m: map<Key, Value>) returns (ts': Tables)
    requires Good(ts) && Agrees(ts, m)
    ensures Good(ts') && ts' == Grown(ts) && |ts'.t0| == 2 * |ts.t0| && Agrees(ts', m)
  {
    GrownKeeps(ts);
    ts' := Grown(ts);
    forall e: Entry ensures Total(ts', e) == One(Binds(m, e)) { assert Total(ts', e) == Total(ts, e); }
  }

  /** The resizes that make a table of this capacity large. */
  function Doublings(capacity: nat): nat
    requires capacity > 0
    decreases LARGE - capacity
  {
    if capacity >= LARGE then 0 else 1 + Doublings(2 * capacity)
  }

  /** A number of resizes that is enough for this many keys, the new one included. */
  function Enough(capacity: nat, keys: nat): nat
    requires capacity > 0
  {
    Doublings(capacity) + keys / 3
  }

  /** If the keys fit, that many resizes are enough, from tables of any size. */
  lemma {:induction false} FittingReturns(ts: Tables, m: map<Key, Value>, e: Entry, k: nat, n: nat)
    requires Good(ts) && Agrees(ts, m) && e.key !in m && Fits(m.Keys + {e.key})
    requires k == LIMIT && n >= Enough(|ts.t0|, |m.Keys + {e.key}|)
    ensures Added(ts, e, 0, k, n).outcome.Returned?
    decreases LARGE - |ts.t0|
  {
    if |ts.t0| >= LARGE {
      LargeReturns(ts, m, e, k, n);
    } else if Added(ts, e, 0, k, 0).outcome.Returned? {
      AddedStays(ts, e, 0, k, 0, n);
    } else {
      var ts', m', e' := AfterResize(ts, m, e, 0, k, n);
      FittingReturns(ts', m', e', LIMIT, n - 1);
    }
  }

  /** Insertion of a fresh key returns, with enough resizes, if and only if the stored keys and it fit. */
  lemma ReturnsIffFits(ts: Tables, m: map<Key, Value>, e: Entry)
    requires Good(ts) && Agrees(ts, m) && e.key !in m
    ensures (exists n :: Added(ts, e, 0, LIMIT, n).outcome.Returned?) <==> Fits(m.Keys + {e.key})
  {
    if n :| Added(ts, e, 0, LIMIT, n).outcome.Returned? {
      NeverPlaced(ts, m, e, n);
    }
    if Fits(m.Keys + {e.key}) {
      FittingReturns(ts, m, e, LIMIT, Enough(|ts.t0|, |m.Keys + {e.key}|));
    }
  }

  /** A fresh key that does not fit is never placed, whatever the number of resizes. */
  lemma NeverPlaced(ts: Tables, m: map<Key, Value>, e: Entry, n: nat)
    requires Good(ts) && Agrees(ts, m) && e.key !in m
    ensures Added(ts, e, 0, LIMIT, n).outcome.Returned? ==> Fits(m.Keys + {e.key})
  {
    var r := Added(ts, e, 0, LIMIT, n);
    if r.outcome.Returned? {
      AddedConserves(ts, e, 0, LIMIT, n);
      FreshIsAdded(ts, m, e, r);
      StoredFits(r.tables, m[e.key := e.value]);
      assert m[e.key := e.value].Keys == m.Keys + {e.key};
    }
  }

  /** If they fit, that number of resizes and any larger one puts the key in its place. */
  lemma PlacedInTheEnd(ts: Tables, m: map<Key, Value>, e: Entry, n: nat)
    requires Good(ts) && Agrees(ts, m) && e.key !in m && Fits(m.Keys + {e.key})
    requires n >= Enough(|ts.t0|, |m.Keys + {e.key}|)
    ensures var r := Added(ts, e, 0, LIMIT, n);
            r.outcome == Returned(0) && Good(r.tables) && Agrees(r.tables, m[e.key := e.value])
  {
    FittingReturns(ts, m, e, LIMIT, n);
    AddedConserves(ts, e, 0, LIMIT, n);
    FreshIsAdded(ts, m, e, Added(ts, e, 0, LIMIT, n));
  }

  /** A table that starts with the initial capacity is large after 17 doublings, so with at most 20 keys,
      the new one included, at most 23 are made and the capacity stays below 2^31. */
  lemma SmallTablesStayInRange(keys: nat)
    requires keys <= 20
    ensures Doublings(CAPACITY) == 17 && Enough(CAPACITY, keys) <= 23 && CAPACITY * 0x80_0000 < 0x8000_0000
  {
    assert Doublings(0x100_0000) == 0;
    assert Doublings(0x40_0000) == 2 && Doublings(0x10_0000) == 4 && Doublings(0x4_0000) == 6;
    assert Doublings(0x1_0000) == 8 && Doublings(0x4000) == 10 && Doublings(0x1000) == 12;
    assert Doublings(0x400) == 14 && Doublings(0x100) == 16;
  }
}
