/** The intrusive doubly linked queue of include/inter/coroc_queue.h: the links live in the items, and
    each item records the queue it was added to.  The queue refines a sequence of items.  The forward
    links always follow that sequence; the backward links do so if the first item of an empty queue comes
    with a clear `prev`, and only extraction depends on them. */
module IntrusiveQueue {

  class Item {
    var next: Item?
    var prev: Item?
    var que: Queue?
    const owner: nat    // void *, with 0 for NULL

    /** queue_item_init */
    constructor (owner: nat)
      ensures this.owner == owner && Clean()
    {
      next, prev, que := null, null, null;
      this.owner := owner;
    }

    /** What `prev` points to, if anything. */
    ghost function Predecessor(): set<Item>
      reads this
    {
      if prev == null then {} else {prev}
    }

    ghost predicate Clean()
      reads this
    {
      next == null && prev == null && que == null
    }
  }

  /** The item in slot i, or null outside. */
  function At(s: seq<Item>, i: int): Item? {
    if 0 <= i < |s| then s[i] else null
  }

  predicate Distinct(s: seq<Item>) {
    forall i, j :: 0 <= i < j < |s| ==> s[i] != s[j]
  }

  /** Slot i points to slot i + 1. */
  predicate Ahead(s: seq<Item>, i: nat)
    reads s
  {
    i + 1 < |s| ==> s[i].next == s[i + 1]
  }

  /** Slot i + 1 points back to slot i. */
  predicate Behind(s: seq<Item>, i: nat)
    reads s
  {
    i + 1 < |s| ==> s[i + 1].prev == s[i]
  }

  /** A chain with its two ends. */
  ghost predicate Linked(s: seq<Item>, head: Item?, tail: Item?)
    reads s
  {
    && head == At(s, 0) && tail == At(s, |s| - 1) && Distinct(s) && (forall i: nat :: Ahead(s, i))
    && (s != [] ==> s[|s| - 1].next == null)
  }

  /** The same chain can be walked backwards... */
  ghost predicate Backward(s: seq<Item>)
    reads s
  {
    forall i: nat :: Behind(s, i)
  }

  /** ...and that ends at its first item. */
  ghost predicate BackLinked(s: seq<Item>)
    reads s
  {
    Backward(s) && (s != [] ==> s[0].prev == null)
  }

  /** queue_link */
  method Link(item1: Item, item2: Item)
    requires item1 != item2
    modifies item1`next, item2`prev
    ensures item1.next == item2 && item2.prev == item1
  {
    item1.next := item2;
    item2.prev := item1;
  }

  /** How a batch becomes a chain before it is added as a range. */
  method LinkAll(batch: seq<Item>)
    requires Distinct(batch) && batch != []
    modifies batch`next, batch`prev
    ensures forall j: nat :: Ahead(batch, j) && Behind(batch, j)
    ensures batch[0].prev == old(batch[0].prev)
  {
    for i := 0 to |batch| - 1
      invariant forall j: nat :: j < i ==> Ahead(batch, j) && Behind(batch, j)
      invariant batch[0].prev == old(batch[0].prev)
    {
      label before:
      Link(batch[i], batch[i + 1]);
      forall j: nat | j <= i ensures Ahead(batch, j) && Behind(batch, j) {
        assert j < i ==> old@before(Ahead(batch, j) && Behind(batch, j));
      }
    }
  }

  class Queue {
    var head: Item?
    var tail: Item?
    var status: nat
    ghost var items: seq<Item>

    ghost predicate Valid()
      reads this, items
    {
      status == |items| && Linked(items, head, tail)
    }

    /** queue_init */
    constructor ()
      ensures Valid() && items == [] && BackLinked(items)
    {
      head, tail, status, items := null, null, 0, [];
    }

    /** queue_add. An item that goes into an empty queue keeps its `prev`. */
    method Add(item: Item)
      requires Valid() && item !in items
      modifies this, item, tail
      ensures Valid() && items == old(items) + [item] && item.que == this
      ensures Backward(items) <==> old(Backward(items))
      ensures BackLinked(items) <==> old(BackLinked(items)) && (old(items) == [] ==> old(item.prev) == null)
      ensures forall x :: x in old(items) ==> x.que == old(x.que)
    {
      item.next := null;
      if status == 0 {
        head := item;
        tail := item;
      } else {
        tail.next := item;
        item.prev := tail;
        tail := item;
      }
      item.que := this;
      status := status + 1;
      items := items + [item];
      forall i: nat ensures Ahead(items, i) { assert old(Ahead(items, i)); }
      forall i: nat ensures i + 1 < |old(items)| ==> (Behind(items, i) <==> old(Behind(items, i))) {}
    }

    /** queue_add_range: appends a ready-made chain. Only its two ends get to know the queue, so an item
        from the middle cannot be extracted later. */
    method AddRange(n: nat, from: Item, to: Item, ghost chain: seq<Item>)
      requires Valid() && 0 < n == |chain| && chain[0] == from && chain[n - 1] == to
      requires Distinct(chain) && (forall i: nat :: Ahead(chain, i)) && forall i :: 0 <= i < n ==> chain[i] !in items
      modifies this, tail, from, to
      ensures Valid() && items == old(items) + chain
      ensures old(Backward(items)) && old(Backward(chain)) ==> Backward(items)
      ensures old(BackLinked(items)) && old(Backward(chain)) && (old(items) == [] ==> old(from.prev) == null) ==> BackLinked(items)
      ensures forall x :: x in old(items) ==> x.que == old(x.que)
      ensures forall i :: 0 <= i < n ==> chain[i].que == if i == 0 || i == n - 1 then this else old(chain[i].que)
    {
      if status == 0 {
        head := from;
        tail := to;
      } else {
        tail.next := from;
        from.prev := tail;
        tail := to;
      }
      from.que := this;
      to.que := this;
      to.next := null;
      status := status + n;
      items := items + chain;
      forall i: nat ensures Ahead(items, i) {
        assert old(Ahead(items, i));
        assert i >= |old(items)| ==> old(Ahead(chain, i - |items|));
      }
      if old(Backward(items)) && old(Backward(chain)) {
        forall i: nat ensures Behind(items, i) {
          assert old(Behind(items, i));
          assert i >= |old(items)| ==> old(Behind(chain, i - |items|));
        }
      }
    }

    /** queue_rem */
    method Rem() returns (owner: nat)
      requires Valid()
      modifies this, items
      ensures Valid() && (old(Backward(items)) ==> Backward(items)) && (old(BackLinked(items)) ==> BackLinked(items))
      ensures old(items) == [] ==> owner == 0 && items == []
      ensures old(items) != [] ==> owner == old(items)[0].owner && items == old(items)[1..] && old(items)[0].Clean()
      ensures forall x :: x in items ==> x.que == old(x.que)
    {
      if status == 0 { return 0; }
      assert Ahead(items, 0);
      var kitem := head;
      head := head.next;
      if head != null { head.prev := null; } else { tail := head; }
      status := status - 1;
      kitem.prev := null;
      kitem.next := null;
      kitem.que := null;
      owner := kitem.owner;
      items := items[1..];
      forall i: nat ensures Ahead(items, i) { assert old(Ahead(items, i + 1)); }
      if old(Backward(items)) {
        forall i: nat ensures Behind(items, i) { assert old(Behind(items, i + 1)); }
      }
    }

    /** The refill loop of core_elect, which takes items off the front by hand: only the queue's own fields
        and the new front's `prev` are updated, and what was taken keeps its links and its `que`. */
    method Fetch(n: nat) returns (fetched: seq<Item>)
      requires Valid() && n <= status
      modifies this, items`prev
      ensures Valid() && (old(Backward(items)) ==> Backward(items)) && (old(BackLinked(items)) ==> BackLinked(items))
      ensures fetched == old(items)[..n] && items == old(items)[n..]
      ensures forall i :: 0 <= i < n ==> fetched[i].prev == old(items[i].prev)
    {
      fetched := [];
      for i := 0 to n
        invariant head == At(items, i) && status == |items| - i && tail == old(tail) && items == old(items)
        invariant fetched == items[..i] && forall j :: 0 <= j < |items| ==> items[j].prev == old(items[j].prev)
      {
        assert Ahead(items, i);
        fetched := fetched + [head];
        head := head.next;
        status := status - 1;
      }
      if head != null { head.prev := null; } else { tail := head; }
      assert n < |items| ==> forall i :: 0 <= i < |items| && i != n ==> items[i] != head;
      items := items[n..];
      forall i: nat ensures Ahead(items, i) { assert old(Ahead(items, i + n)); }
      if old(Backward(items)) {
        forall i: nat ensures Behind(items, i) {
          assert old(Behind(items, i + n)) && (i + 1 < |items| ==> old(items)[i + 1 + n] == items[i + 1]);
        }
      }
    }

    /** The pointer updates of queue_extract, for the item in slot k. */
    method Unlink(item: Item, ghost k: nat)
      requires Valid() && Backward(items) && k < |items| && items[k] == item
      modifies this`head, this`tail, items`next, items`prev, item.Predecessor()`next
      ensures item.next == null && item.prev == null
      ensures k == 0 && old(item.prev) != null ==> head == item
      ensures !(k == 0 && old(item.prev) != null) ==>
        && Bypassed(items, k) && (k > 0 ==> items[0].prev == old(items[0].prev))
        && head == (if k == 0 then At(items, 1) else items[0])
        && tail == if k == |items| - 1 then At(items, k - 1) else items[|items| - 1]
    {
      assert Ahead(items, k) && (k > 0 ==> Behind(items, k - 1));
      if item.prev != null { item.prev.next := item.next; } else { head := item.next; }
      if item.next != null { item.next.prev := item.prev; } else { tail := item.prev; }
      item.prev := null;
      item.next := null;
      if !(k == 0 && old(item.prev) != null) {
        forall i: nat | i + 1 != k && i != k ensures Ahead(items, i) && Behind(items, i) {
          assert old(Ahead(items, i) && Behind(items, i));
        }
      }
    }

    /** The rest of it: the item forgets the queue and is not counted any more. If the queue still starts
        with it, it is no longer whole. */
    method Leave(item: Item, ghost k: nat, ghost stale: bool)
      requires k < |items| && items[k] == item && Distinct(items) && status == |items|
      requires stale ==> head == item
      requires !stale ==> Bypassed(items, k) && var r := Without(items, k); head == At(r, 0) && tail == At(r, |r| - 1)
      modifies this`status, this`items, item`que
      ensures items == Without(old(items), k) && item.que == null
      ensures if stale then !Valid() else Valid() && Backward(items)
    {
      if !stale { BypassedIsLinked(items, k); }
      status := status - 1;
      items := Without(items, k);
      label unlinked:
      item.que := null;
      assert item !in items;
      if !stale {
        forall i: nat ensures Ahead(items, i) && Behind(items, i) { assert old@unlinked(Ahead(items, i) && Behind(items, i)); }
      }
    }

    /** What queue_extract does to the item in slot k, if it records the queue. */
    method TakeOut(item: Item, ghost k: nat, ghost stale: bool)
      requires Valid() && Backward(items) && k < |items| && items[k] == item
      requires stale <==> k == 0 && item.prev != null
      modifies this, items`next, items`prev, item`que, item.Predecessor()`next
      ensures items == Without(old(items), k) && item.Clean() && (Valid() <==> !stale)
      ensures !stale ==> Backward(items) && (old(BackLinked(items)) ==> BackLinked(items))
    {
      Unlink(item, k);
      Leave(item, k, stale);
    }

    /** queue_extract. Nothing happens to an item that does not record this queue. Extracting any other
        leaves a queue without it, exactly if it is not a first item that came with a stale `prev`. */
    method Extract(item: Item)
      requires Valid() && Backward(items) && (item.que == this ==> item in items)
      modifies this, items, item.Predecessor()`next
      ensures old(item.que) != this ==> Valid() && items == old(items) && item.que == old(item.que)
      ensures old(item.que) == this ==> item.Clean() && Gone(old(items), items, item)
      ensures Valid() <==> !old(item.que == this && item == head && item.prev != null)
      ensures Valid() ==> Backward(items) && (old(BackLinked(items)) ==> BackLinked(items))
      ensures forall x :: x in items ==> x.que == old(x.que)
    {
      if item.que != this { return; }
      ghost var k :| 0 <= k < |items| && items[k] == item;
      assert status > 0;
      assert k == 0 <==> item == head;
      TakeOut(item, k, k == 0 && item.prev != null);
      assert items == Without(old(items), k) && old(items)[k] == item && item !in items;
    }
  }

  /** The neighbours of slot k point past it, and all other slots on as before. */
  ghost predicate Bypassed(s: seq<Item>, k: nat)
    requires k < |s|
    reads s
  {
    && (forall i: nat :: i + 1 != k && i != k ==> Ahead(s, i) && Behind(s, i))
    && (0 < k ==> s[k - 1].next == At(s, k + 1))
    && (k + 1 < |s| ==> s[k + 1].prev == At(s, k - 1))
    && (k + 1 < |s| ==> s[|s| - 1].next == null)
  }

  lemma BypassedIsLinked(s: seq<Item>, k: nat)
    requires k < |s| && Distinct(s) && Bypassed(s, k)
    ensures var r := Without(s, k); Linked(r, At(r, 0), At(r, |r| - 1)) && Backward(r)
  {
    var r := Without(s, k);
    forall i: nat ensures Ahead(r, i) && Behind(r, i) {
      assert i + 1 != k && i != k ==> Ahead(s, i) && Behind(s, i);
      assert i + 2 != k && i + 1 != k ==> Ahead(s, i + 1) && Behind(s, i + 1);
    }
  }

  /** The sequence without slot k. */
  ghost function Without(s: seq<Item>, k: nat): (r: seq<Item>)
    requires k < |s|
    ensures |r| == |s| - 1 && forall i :: 0 <= i < |r| ==> r[i] == s[if i < k then i else i + 1]
  {
    s[..k] + s[k + 1..]
  }

  /** r is s without x, which s has once. */
  ghost predicate Gone(s: seq<Item>, r: seq<Item>, x: Item) {
    exists k :: 0 <= k < |s| && s[k] == x && r == Without(s, k)
  }

  /** Three items added as a range: extracting the middle one does nothing. */
  method MiddleOfRangeStays(q: Queue, a: Item, b: Item, c: Item)
    requires q.Valid() && q.items == [] && a.Clean() && b.Clean() && c.Clean() && a != b && b != c && a != c
    modifies q, a, b, c
    ensures q.Valid() && q.items == [a, b, c] && b.que == null
  {
    LinkAll([a, b, c]);
    q.AddRange(3, a, c, [a, b, c]);
    assert [a, b, c][1] == b && Behind(q.items, 0);
    q.Extract(b);
  }
}
