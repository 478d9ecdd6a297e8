/** The two tables of src/hash.c as values: where entries belong, what one insertion does to them, and
    that it neither loses nor doubles an entry.  The class in CuckooHash computes these functions in
    place. */
module CuckooTables {
  import opened Common

  const WORD: nat := 0x1_0000_0000_0000_0000
  const CAPACITY: nat := 128
  const LIMIT: nat := 6

  /** uint64_t */
  type Key = k: nat | k < WORD

  /** void *, with 0 for NULL. */
  type Value = nat

  datatype Entry = Entry(key: Key, value: Value)
  datatype Slot = Empty | Full(entry: Entry)

  function Hash0(code: Key): nat {
    (17 * code + 72343) % WORD % 9275507
  }

  function Hash1(code: Key): nat {
    (19 * code + 89145) % WORD % 8232341
  }

  function Hash(i: nat, code: Key): nat {
    if i == 0 then Hash0(code) else Hash1(code)
  }

  function Position(i: nat, code: Key, capacity: nat): (pos: nat)
    requires capacity > 0
    ensures pos < capacity
  {
    Hash(i, code) % capacity
  }

  /* ---- A table as a bag of entries ---- */

  function Holding(e: Entry): Slot -> bool {
    s => s == Full(e)
  }

  /** How many slots hold e. */
  function Copies(t: seq<Slot>, e: Entry): nat {
    Count(t, Holding(e))
  }

  lemma CopiesUpdate(t: seq<Slot>, j: nat, s: Slot, e: Entry)
    requires j < |t|
    ensures Copies(t[j := s], e) + One(t[j] == Full(e)) == Copies(t, e) + One(s == Full(e))
  {
    CountUpdate(t, Holding(e), j, s);
  }

  lemma NoCopies(t: seq<Slot>, e: Entry)
    requires forall j :: 0 <= j < |t| ==> t[j] != Full(e)
    ensures Copies(t, e) == 0
  {
    CountNone(t, Holding(e));
  }

  lemma {:induction false} OneCopy(t: seq<Slot>, p: nat, e: Entry)
    requires p < |t| && t[p] == Full(e) && forall j :: 0 <= j < |t| && j != p ==> t[j] != Full(e)
    ensures Copies(t, e) == 1
  {
    var n := |t| - 1;
    if p < n { OneCopy(t[..n], p, e); } else { NoCopies(t[..n], e); }
  }

  /** Every entry of table i is where its hash says. */
  predicate Placed(t: seq<Slot>, i: nat) {
    |t| > 0 && forall j :: 0 <= j < |t| && t[j].Full? ==> Position(i, t[j].entry.key, |t|) == j
  }

  /** A well-placed table has an entry at most once, and one slot decides whether it does. */
  lemma OneSlotDecides(t: seq<Slot>, i: nat, e: Entry)
    requires Placed(t, i)
    ensures Copies(t, e) == One(t[Position(i, e.key, |t|)] == Full(e))
  {
    var p := Position(i, e.key, |t|);
    if t[p] == Full(e) { OneCopy(t, p, e); } else { NoCopies(t, e); }
  }

  /* ---- Both tables ---- */

  datatype Tables = Tables(t0: seq<Slot>, t1: seq<Slot>) {
    function Side(i: nat): seq<Slot> { if i == 0 then t0 else t1 }
  }

  predicate Good(ts: Tables) {
    |ts.t0| == |ts.t1| && Placed(ts.t0, 0) && Placed(ts.t1, 1)
  }

  /** How many times e is stored. */
  function Total(ts: Tables, e: Entry): nat {
    Copies(ts.t0, e) + Copies(ts.t1, e)
  }

  predicate Binds(m: map<Key, Value>, e: Entry) { e.key in m && m[e.key] == e.value }

  /** The tables store exactly the bindings of m, each once. */
  ghost predicate Agrees(ts: Tables, m: map<Key, Value>) {
    forall e: Entry :: Total(ts, e) == One(Binds(m, e))
  }

  function Find(ts: Tables, i: nat, key: Key): Slot
    requires Good(ts)
  {
    ts.Side(i)[Position(i, key, |ts.t0|)]
  }

  /** Table i has this key. */
  predicate Has(ts: Tables, i: nat, key: Key)
    requires Good(ts)
  {
    Find(ts, i, key).Full? && Find(ts, i, key).entry.key == key
  }

  /** The tables with s in the slot of table i that belongs to key. */
  function Write(ts: Tables, i: nat, key: Key, s: Slot): Tables
    requires Good(ts)
  {
    var p := Position(i, key, |ts.t0|);
    if i == 0 then ts.(t0 := ts.t0[p := s]) else ts.(t1 := ts.t1[p := s])
  }

  lemma WriteKeeps(ts: Tables, i: nat, key: Key, s: Slot)
    requires Good(ts) && i < 2 && (s.Full? ==> s.entry.key == key)
    ensures Good(Write(ts, i, key, s))
    ensures forall f :: Total(Write(ts, i, key, s), f) + One(Find(ts, i, key) == Full(f)) == Total(ts, f) + One(s == Full(f))
  {
    var p := Position(i, key, |ts.t0|);
    forall f ensures Total(Write(ts, i, key, s), f) + One(Find(ts, i, key) == Full(f)) == Total(ts, f) + One(s == Full(f)) {
      CopiesUpdate(ts.Side(i), p, s, f);
    }
  }

  /* ---- Evicting ---- */

  /** What an insertion comes to: the source's return value, or still evicting. */
  datatype Outcome = Returned(code: int) | Running

  datatype Result = Result(outcome: Outcome, tables: Tables, left: Entry)

  /** Going from (ts, e) to r lost and doubled nothing: what is stored and what is in hand together stay
      the same, and an entry is refused only if its key is stored. */
  ghost predicate Conserved(ts: Tables, e: Entry, r: Result) {
    && Good(r.tables)
    && (r.outcome == Returned(0) || r.outcome == Returned(-1) || r.outcome == Running)
    && (r.outcome == Returned(0) ==> forall f :: Total(r.tables, f) == Total(ts, f) + One(f == e))
    && (r.outcome != Returned(0) ==> forall f :: Total(r.tables, f) + One(f == r.left) == Total(ts, f) + One(f == e))
    && (r.outcome == Returned(-1) ==> exists f: Entry :: f.key == r.left.key && Total(r.tables, f) > 0)
  }

  /** Conservation composes. */
  lemma ConservedAfter(ts: Tables, e: Entry, ts': Tables, e': Entry, r: Result)
    requires forall f :: Total(ts', f) + One(f == e') == Total(ts, f) + One(f == e)
    requires Conserved(ts', e', r)
    ensures Conserved(ts, e, r)
  {
    forall f ensures r.outcome == Returned(0) ==> Total(r.tables, f) == Total(ts, f) + One(f == e) {
      assert Total(ts', f) + One(f == e') == Total(ts, f) + One(f == e);
    }
    forall f ensures r.outcome != Returned(0) ==> Total(r.tables, f) + One(f == r.left) == Total(ts, f) + One(f == e) {
      assert Total(ts', f) + One(f == e') == Total(ts, f) + One(f == e);
    }
  }

  /* ---- Doubling ---- */

  lemma Remainder(x: nat, c: nat, q: int, r: nat)
    requires c > 0 && x == c * q + r && r < c
    ensures x % c == r
  {
    var d := x / c - q;
    assert c * d == r - x % c;
    assert d == 0;
  }

  lemma HalfTheModulus(h: nat, c: nat)
    requires c > 0
    ensures h % (2 * c) % c == h % c
  {
    var (q, r) := (h / (2 * c), h % (2 * c));
    assert r == c * (r / c) + r % c;
    assert h == c * (2 * q + r / c) + r % c;
    Remainder(h, c, 2 * q + r / c, r % c);
  }

  /** An entry moves to its old slot or to the one a capacity further: never into another entry's way. */
  lemma PositionDoubled(i: nat, key: Key, c: nat)
    requires c > 0
    ensures Position(i, key, 2 * c) % c == Position(i, key, c)
  {
    HalfTheModulus(Hash(i, key), c);
  }

  lemma DoublingSeparates(i: nat, k0: Key, k1: Key, c: nat)
    requires c > 0 && Position(i, k0, c) != Position(i, k1, c)
    ensures Position(i, k0, 2 * c) != Position(i, k1, 2 * c)
  {
    PositionDoubled(i, k0, c);
    PositionDoubled(i, k1, c);
  }

  /** What slot p of the doubled table i holds. */
  function DoubledSlot(t: seq<Slot>, i: nat, p: nat): Slot
    requires |t| > 0
  {
    var s := t[p % |t|];
    if s.Full? && Position(i, s.entry.key, 2 * |t|) == p then s else Empty
  }

  /** The new table that __resize makes for table i. */
  function Doubled(t: seq<Slot>, i: nat): (d: seq<Slot>)
    requires |t| > 0
    ensures |d| == 2 * |t|
  {
    seq(2 * |t|, p requires 0 <= p < 2 * |t| => DoubledSlot(t, i, p))
  }

  lemma DoubledKeeps(t: seq<Slot>, i: nat)
    requires Placed(t, i)
    ensures Placed(Doubled(t, i), i) && forall f :: Copies(Doubled(t, i), f) == Copies(t, f)
  {
    var d := Doubled(t, i);
    assert Placed(d, i);
    forall f ensures Copies(d, f) == Copies(t, f) {
      OneSlotDecides(t, i, f);
      OneSlotDecides(d, i, f);
      PositionDoubled(i, f.key, |t|);
    }
  }

  /** __resize */
  function Grown(ts: Tables): (r: Tables)
    requires Good(ts)
  {
    Tables(Doubled(ts.t0, 0), Doubled(ts.t1, 1))
  }

  lemma GrownKeeps(ts: Tables)
    requires Good(ts)
    ensures Good(Grown(ts)) && |Grown(ts).t0| == 2 * |ts.t0| && forall f :: Total(Grown(ts), f) == Total(ts, f)
  {
    DoubledKeeps(ts.t0, 0);
    DoubledKeeps(ts.t1, 1);
  }

  /* ---- Inserting ---- */

  /** __add, watched for a number of resizes: e is in hand, its next place is in table i, and k rounds of
      the loop are left. The entry in hand at the end is `left`. */
  function Added(ts: Tables, e: Entry, i: nat, k: nat, resizes: nat): Result
    requires Good(ts) && i < 2
    decreases resizes, k
  {
    if k == 0 then
      GrownKeeps(ts);
      if resizes == 0 then Result(Running, ts, e) else Added(Grown(ts), e, 0, LIMIT, resizes - 1)
    else
      WriteKeeps(ts, i, e.key, Full(e));
      var (tmp, ts') := (Find(ts, i, e.key), Write(ts, i, e.key, Full(e)));
      if tmp.Empty? then Result(Returned(0), ts', e)
      else if tmp.entry.key == e.key then Result(Returned(-1), ts, e)
      else Added(ts', tmp.entry, (i + 1) % 2, k - 1, resizes)
  }

  /** One round: the entry in hand is stored, or refused, or exchanged with the one in its slot. */
  lemma RoundConserves(ts: Tables, e: Entry, i: nat)
    requires Good(ts) && i < 2
    ensures var (tmp, ts') := (Find(ts, i, e.key), Write(ts, i, e.key, Full(e)));
            && Good(ts')
            && (tmp.Empty? ==> Conserved(ts, e, Result(Returned(0), ts', e)))
            && (tmp.Full? && tmp.entry.key == e.key ==> Conserved(ts, e, Result(Returned(-1), ts, e)))
            && (tmp.Full? ==> forall f :: Total(ts', f) + One(f == tmp.entry) == Total(ts, f) + One(f == e))
  {
    var tmp := Find(ts, i, e.key);
    WriteKeeps(ts, i, e.key, Full(e));
    if tmp.Full? && tmp.entry.key == e.key {
      OneSlotDecides(ts.Side(i), i, tmp.entry);
      assert Total(ts, tmp.entry) > 0;
    }
  }

  /** Over all evictions and resizes. */
  lemma {:induction false} AddedConserves(ts: Tables, e: Entry, i: nat, k: nat, resizes: nat)
    requires Good(ts) && i < 2
    ensures Conserved(ts, e, Added(ts, e, i, k, resizes))
    decreases resizes, k
  {
    if k == 0 {
      if resizes > 0 {
        GrownKeeps(ts);
        AddedConserves(Grown(ts), e, 0, LIMIT, resizes - 1);
        ConservedAfter(ts, e, Grown(ts), e, Added(ts, e, i, k, resizes));
      }
    } else {
      var (tmp, ts') := (Find(ts, i, e.key), Write(ts, i, e.key, Full(e)));
      RoundConserves(ts, e, i);
      if tmp.Full? && tmp.entry.key != e.key {
        AddedConserves(ts', tmp.entry, (i + 1) % 2, k - 1, resizes);
        ConservedAfter(ts, e, ts', tmp.entry, Added(ts, e, i, k, resizes));
      }
    }
  }

  /** A round after which the insertion goes on, whatever number of resizes is watched. */
  lemma RoundStays(ts: Tables, e: Entry, i: nat, k: nat, n: nat, more: nat) returns (ts': Tables, e': Entry, i': nat)
    requires Good(ts) && i < 2 && k > 0 && Find(ts, i, e.key).Full? && Find(ts, i, e.key).entry.key != e.key
    ensures Good(ts') && i' < 2 && |ts'.t0| == |ts.t0|
    ensures Added(ts, e, i, k, n) == Added(ts', e', i', k - 1, n)
    ensures Added(ts, e, i, k, more) == Added(ts', e', i', k - 1, more)
  {
    WriteKeeps(ts, i, e.key, Full(e));
    ts', e', i' := Write(ts, i, e.key, Full(e)), Find(ts, i, e.key).entry, (i + 1) % 2;
  }

  /** A round after which it has returned. */
  lemma LastRoundStays(ts: Tables, e: Entry, i: nat, k: nat, n: nat, more: nat)
    requires Good(ts) && i < 2 && k > 0 && (Find(ts, i, e.key).Full? ==> Find(ts, i, e.key).entry.key == e.key)
    ensures Added(ts, e, i, k, n) == Added(ts, e, i, k, more)
  {}

  lemma ResizeStays(ts: Tables, e: Entry, i: nat, n: nat, more: nat) returns (ts': Tables)
    requires Good(ts) && i < 2 && 0 < n <= more
    ensures Good(ts')
    ensures Added(ts, e, i, 0, n) == Added(ts', e, 0, LIMIT, n - 1)
    ensures Added(ts, e, i, 0, more) == Added(ts', e, 0, LIMIT, more - 1)
  {
    GrownKeeps(ts);
    ts' := Grown(ts);
  }

  /** Once it has returned, watching longer changes nothing. */
  lemma {:induction false} AddedStays(ts: Tables, e: Entry, i: nat, k: nat, n: nat, more: nat)
    requires Good(ts) && i < 2 && n <= more && Added(ts, e, i, k, n).outcome.Returned?
    ensures Added(ts, e, i, k, more) == Added(ts, e, i, k, n)
    decreases n, k
  {
    if k == 0 {
      var ts' := ResizeStays(ts, e, i, n, more);
      AddedStays(ts', e, 0, LIMIT, n - 1, more - 1);
    } else if Find(ts, i, e.key).Full? && Find(ts, i, e.key).entry.key != e.key {
      var ts', e', i' := RoundStays(ts, e, i, k, n, more);
      AddedStays(ts', e', i', k - 1, n, more);
    } else {
      LastRoundStays(ts, e, i, k, n, more);
    }
  }

  /** A fresh key that is placed extends the map by itself and nothing else, and it is never refused. */
  lemma FreshIsAdded(ts: Tables, m: map<Key, Value>, e: Entry, r: Result)
    requires Agrees(ts, m) && e.key !in m && Conserved(ts, e, r) && r.outcome.Returned?
    ensures r.outcome == Returned(0) && Agrees(r.tables, m[e.key := e.value])
  {
    if r.outcome == Returned(-1) {
      NeverRefused(ts, m, e, r);
    } else {
      forall f: Entry ensures Total(r.tables, f) == One(Binds(m[e.key := e.value], f)) {
        assert Total(ts, f) == One(Binds(m, f));
      }
    }
  }

  lemma NeverRefused(ts: Tables, m: map<Key, Value>, e: Entry, r: Result)
    requires Agrees(ts, m) && e.key !in m && Conserved(ts, e, r)
    ensures r.outcome != Returned(-1)
  {
    forall f: Entry | f.key == r.left.key && Total(r.tables, f) > 0 ensures r.outcome.Running? || r.outcome == Returned(0) {
      assert Total(ts, f) == One(Binds(m, f)) && Total(ts, r.left) == One(Binds(m, r.left));
    }
  }

  /** What is stored while another entry is in hand. */
  lemma StillRunning(ts: Tables, m: map<Key, Value>, e: Entry, r: Result)
    requires Agrees(ts, m) && e.key !in m && Conserved(ts, e, r) && r.outcome.Running?
    ensures var total := m[e.key := e.value]; Binds(total, r.left) && Agrees(r.tables, total - {r.left.key})
  {
    var total := m[e.key := e.value];
    assert Total(ts, r.left) == One(Binds(m, r.left));
    assert Total(r.tables, r.left) + 1 == Total(ts, r.left) + One(r.left == e);
    forall f: Entry ensures Total(r.tables, f) == One(Binds(total - {r.left.key}, f)) {
      assert Total(ts, f) == One(Binds(m, f));
    }
  }

  /** A stored key sits in one of its two slots. */
  lemma Sits(ts: Tables, m: map<Key, Value>, k: Key)
    requires Good(ts) && Agrees(ts, m) && k in m
    ensures Find(ts, 0, k) == Full(Entry(k, m[k])) || Find(ts, 1, k) == Full(Entry(k, m[k]))
  {
    var e := Entry(k, m[k]);
    assert Total(ts, e) == One(Binds(m, e));
    OneSlotDecides(ts.t0, 0, e);
    OneSlotDecides(ts.t1, 1, e);
  }

  /** A slot that has the key has the map's value for it. */
  lemma Found(ts: Tables, m: map<Key, Value>, i: nat, key: Key)
    requires Good(ts) && Agrees(ts, m) && i < 2 && Has(ts, i, key)
    ensures key in m && Find(ts, i, key) == Full(Entry(key, m[key]))
  {
    var e := Find(ts, i, key).entry;
    OneSlotDecides(ts.Side(i), i, e);
    assert Total(ts, e) == One(Binds(m, e));
  }
}
