/** The cuckoo hash table of src/hash.c and include/inter/coroc_hash.h: two tables, one hash function
    each; an insertion that meets an occupied slot evicts its entry and tries that one in the other
    table, and after LIMIT evictions doubles both tables.  The methods work in place and compute the
    functions of CuckooTables. */
module CuckooHash {
  import opened Common
  import opened CuckooTables
  import opened CuckooWalk

  class Table {
    var capacity: nat
    var table: seq<array<Slot>>

    ghost function View(): Tables
      requires |table| == 2
      reads this, table
    {
      Tables(table[0][..], table[1][..])
    }

    ghost predicate Valid()
      reads this, table
    {
      && |table| == 2 && table[0] != table[1]
      && table[0].Length == capacity && table[1].Length == capacity && Good(View())
    }

    /** hash_init */
    constructor ()
      ensures Valid() && Agrees(View(), map[]) && fresh(table[0]) && fresh(table[1])
    {
      capacity := CAPACITY;
      var t0 := new Slot[CAPACITY](_ => Empty);
      var t1 := new Slot[CAPACITY](_ => Empty);
      table := [t0, t1];
      new;
      forall e: Entry ensures Total(View(), e) == 0 {
        NoCopies(table[0][..], e);
        NoCopies(table[1][..], e);
      }
    }

    /** Writes the slot of table i that belongs to key. */
    method Set(i: nat, key: Key, s: Slot)
      requires Valid() && i < 2 && (s.Full? ==> s.entry.key == key)
      modifies table[i]
      ensures Valid() && View() == Write(old(View()), i, key, s)
    {
      WriteKeeps(View(), i, key, s);
      table[i][Position(i, key, capacity)] := s;
      assert View() == Write(old(View()), i, key, s);
    }

    /** The new table that __resize makes for table i. Empty slots are skipped. */
    method Double(i: nat) returns (tmp: array<Slot>)
      requires Valid() && i < 2
      ensures fresh(tmp) && tmp[..] == Doubled(View().Side(i), i)
    {
      tmp := new Slot[2 * capacity](_ => Empty);
      ghost var t := View().Side(i);
      for j := 0 to capacity
        invariant Valid() && t == View().Side(i) == table[i][..]
        invariant forall p :: 0 <= p < tmp.Length ==> tmp[p] == if p % capacity < j then DoubledSlot(t, i, p) else Empty
      {
        var s := table[i][j];
        if s.Full? {
          var newpos := Position(i, s.entry.key, 2 * capacity);
          PositionDoubled(i, s.entry.key, capacity);
          tmp[newpos] := s;
        }
      }
    }

    /** __resize */
    method Resize()
      requires Valid()
      modifies this
      ensures Valid() && fresh(table[0]) && fresh(table[1]) && View() == Grown(old(View()))
    {
      GrownKeeps(View());
      var t0 := Double(0);
      var t1 := Double(1);
      table := [t0, t1];
      capacity := 2 * capacity;
    }

    /** One round of the loop of __add, with k rounds and n resizes to go. */
    method Round(e: Entry, i: nat, ghost k: nat, ghost n: nat) returns (r: Outcome, left: Entry)
      requires Valid() && i < 2 && k > 0
      modifies table[i]
      ensures Valid() && (r == Returned(0) || r == Returned(-1) || r == Running)
      ensures r.Returned? ==> Result(r, View(), left) == Added(old(View()), e, i, k, n)
      ensures r.Running? ==> Added(View(), left, (i + 1) % 2, k - 1, n) == Added(old(View()), e, i, k, n)
    {
      var tmp := table[i][Position(i, e.key, capacity)];
      assert tmp == Find(View(), i, e.key);
      if tmp.Empty? {
        Set(i, e.key, Full(e));
        return Returned(0), e;
      }
      if e.key == tmp.entry.key { return Returned(-1), e; }
      Set(i, e.key, Full(e));
      return Running, tmp.entry;
    }

    /** The loop of __add: at most LIMIT rounds, n resizes to go. */
    method Evict(e: Entry, ghost n: nat) returns (r: Outcome, left: Entry)
      requires Valid()
      modifies table
      ensures Valid() && (r == Returned(0) || r == Returned(-1) || r == Running)
      ensures r.Returned? ==> Result(r, View(), left) == Added(old(View()), e, 0, LIMIT, n)
      ensures r.Running? ==> Added(View(), left, 0, 0, n) == Added(old(View()), e, 0, LIMIT, n)
    {
      ghost var all := Added(View(), e, 0, LIMIT, n);
      r, left := Running, e;
      var i: nat := 0;
      for k := 0 to LIMIT
        invariant Valid() && i < 2 && r.Running?
        invariant Added(View(), left, i, LIMIT - k, n) == all
      {
        r, left := Round(left, i, LIMIT - k, n);
        if r.Returned? { return; }
        i := (i + 1) % 2;
      }
    }

    /** __add, watched for that many resizes. */
    method Add(e: Entry, resizes: nat) returns (r: Outcome, left: Entry)
      requires Valid()
      modifies this, table
      ensures Valid() && (table == old(table) || (fresh(table[0]) && fresh(table[1])))
      ensures Result(r, View(), left) == Added(old(View()), e, 0, LIMIT, resizes)
      decreases resizes
    {
      r, left := Evict(e, resizes);
      if r.Running? && resizes > 0 {
        Resize();
        r, left := Add(left, resizes - 1);
      }
    }

    /** hash_insert. A fresh key that is placed extends the map exactly, across all evictions and resizes;
        it is never placed if it does not fit. A key that table 0 holds is refused; any other stored key
        can end up in the table twice, as success always means one more entry. */
    method Insert(key: Key, value: Value, resizes: nat) returns (r: Outcome)
      requires Valid()
      modifies this, table
      ensures Valid() && (table == old(table) || (fresh(table[0]) && fresh(table[1])))
      ensures r == Added(old(View()), Entry(key, value), 0, LIMIT, resizes).outcome
      ensures forall m :: old(Agrees(View(), m)) && key !in m && r.Returned? ==> r.code == 0 && Agrees(View(), m[key := value])
      ensures forall m :: old(Agrees(View(), m)) && key !in m && !Fits(m.Keys + {key}) ==> r.Running?
      ensures r == Returned(0) ==> forall f :: Total(View(), f) == old(Total(View(), f)) + One(f == Entry(key, value))
      ensures old(Has(View(), 0, key)) ==> r == Returned(-1) && View() == old(View())
    {
      var left;
      ghost var (ts, e) := (View(), Entry(key, value));
      AddedConserves(ts, e, 0, LIMIT, resizes);
      r, left := Add(Entry(key, value), resizes);
      forall m | Agrees(ts, m) && key !in m && r.Returned? ensures r.code == 0 && Agrees(View(), m[key := value]) {
        FreshIsAdded(ts, m, e, Result(r, View(), left));
      }
      forall m | Agrees(ts, m) && key !in m && !Fits(m.Keys + {key}) ensures r.Running? {
        NeverPlaced(ts, m, e, resizes);
      }
    }

    /** The slot that has the key: read it and, on request, empty it. */
    method Take(i: nat, key: Key, remove: bool) returns (value: Value)
      requires Valid() && i < 2 && Has(View(), i, key)
      modifies table[i]
      ensures Valid() && value == Find(old(View()), i, key).entry.value
      ensures View() == if remove then Write(old(View()), i, key, Empty) else old(View())
      ensures forall m :: old(Agrees(View(), m)) ==>
        key in m && m[key] == value && Agrees(View(), if remove then m - {key} else m)
    {
      ghost var ts := View();
      value := table[i][Position(i, key, capacity)].entry.value;
      forall m | Agrees(ts, m) ensures key in m && m[key] == value { Found(ts, m, i, key); }
      if remove {
        WriteKeeps(ts, i, key, Empty);
        Set(i, key, Empty);
        forall m | Agrees(ts, m) ensures Agrees(View(), m - {key}) { EmptiedAgrees(ts, m, i, key); }
      }
    }

    /** hash_get */
    method Get(key: Key, remove: bool) returns (value: Value)
      requires Valid()
      modifies table
      ensures Valid()
      ensures forall m :: old(Agrees(View(), m)) ==> value == (if key in m then m[key] else 0)
      ensures forall m :: old(Agrees(View(), m)) ==> Agrees(View(), if remove then m - {key} else m)
      ensures value == match Holder(old(View()), key) { case None => 0 case Some(i) => Find(old(View()), i, key).entry.value }
      ensures View() == match Holder(old(View()), key) {
                case Some(i) => if remove then Write(old(View()), i, key, Empty) else old(View())
                case None => old(View()) }
    {
      value := 0;
      for i := 0 to 2
        invariant Valid() && value == 0 && View() == old(View())
        invariant forall j :: 0 <= j < i ==> !Has(View(), j, key)
      {
        var s := table[i][Position(i, key, capacity)];
        assert s == Find(View(), i, key);
        if s.Full? && s.entry.key == key {
          value := Take(i, key, remove);
          return;
        }
      }
      assert !Has(View(), 0, key) && !Has(View(), 1, key);
      forall m | Agrees(View(), m) ensures key !in m {
        if key in m { Sits(View(), m, key); }
      }
    }
  }

  /** The table that a lookup finds the key in: table 0 if both have it. */
  function Holder(ts: Tables, key: Key): Option<nat>
    requires Good(ts)
  {
    if Has(ts, 0, key) then Some(0) else if Has(ts, 1, key) then Some(1) else None
  }

  lemma EmptiedAgrees(ts: Tables, m: map<Key, Value>, i: nat, key: Key)
    requires Good(ts) && i < 2 && Has(ts, i, key) && Agrees(ts, m)
    ensures Agrees(Write(ts, i, key, Empty), m - {key})
  {
    Found(ts, m, i, key);
    WriteKeeps(ts, i, key, Empty);
    forall f: Entry ensures Total(Write(ts, i, key, Empty), f) == One(Binds(m - {key}, f)) {
      assert Total(ts, f) == One(Binds(m, f));
    }
  }

  /* ---- Keys that do not fit ---- */

  lemma Hash0Is(k: Key, q: nat, r: nat)
    requires 17 * k + 72343 == 9275507 * q + r && r < 9275507 && 17 * k + 72343 < WORD
    ensures Hash(0, k) == r
  {
    Remainder(17 * k + 72343, 9275507, q, r);
  }

  lemma Hash1Is(k: Key, q: nat, r: nat)
    requires 19 * k + 89145 == 8232341 * q + r && r < 8232341 && 19 * k + 89145 < WORD
    ensures Hash(1, k) == r
  {
    Remainder(19 * k + 89145, 8232341, q, r);
  }

  /** Keys that do not fit exist: 0, M * N and 2 * M * N share both hashes. */
  lemma ThreeInTwoSlots()
    ensures Overfull({0, 76359136571887, 152718273143774})
  {
    var keys: set<Key> := {0, 76359136571887, 152718273143774};
    Hash0Is(0, 0, 72343);
    Hash0Is(76359136571887, 139949797, 72343);
    Hash0Is(152718273143774, 279899594, 72343);
    Hash1Is(0, 0, 89145);
    Hash1Is(76359136571887, 176234633, 89145);
    Hash1Is(152718273143774, 352469266, 89145);
    assert Hashes(0, keys) == {72343} && Hashes(1, keys) == {89145};
  }

  /** No three of 0, M, M * N and M + M * N share both hashes, but together they have three slots. */
  lemma FourInThreeSlots()
    ensures Overfull({0, 9275507, 76359136571887, 76359145847394})
  {
    var keys: set<Key> := {0, 9275507, 76359136571887, 76359145847394};
    Hash0Is(0, 0, 72343);
    Hash0Is(9275507, 17, 72343);
    Hash0Is(76359136571887, 139949797, 72343);
    Hash0Is(76359145847394, 139949814, 72343);
    Hash1Is(0, 0, 89145);
    Hash1Is(9275507, 21, 3444617);
    Hash1Is(76359136571887, 176234633, 89145);
    Hash1Is(76359145847394, 176234654, 3444617);
    assert Hashes(0, keys) == {72343} && Hashes(1, keys) == {89145, 3444617};
  }
}
