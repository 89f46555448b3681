/**
 The map from threads to implicit producers: a list of hash tables, the newest of which takes
 all insertions, and a list of producers, recycled when their threads exit. One call runs at
 a time. `owner` is the map that the tables stand for.
*/
module ProducerTables {
  import opened Sums
  import opened ProbeTable
  import opened Circular

  const INITIAL_IMPLICIT_PRODUCER_HASH_SIZE: nat := 32

  // -------------------------------------------------------------------
  // The count
  // -------------------------------------------------------------------

  /** The threads that the main table does not have yet. */
  ghost function OnlyOlder(owner: map<nat, Producer>, main: seq<Kvp>): set<nat> {
    set id | id in owner && !Has(main, id)
  }

  /** The count covers the used slots of the main table and the threads it does not have yet, which can all move in. */
  ghost predicate CountOk(owner: map<nat, Producer>, main: seq<Kvp>, count: nat) {
    && Used(main) + |OnlyOlder(owner, main)| <= count
    && |owner| + ReusableSlots(main) <= count
  }

  // -------------------------------------------------------------------
  // The slots in use
  // -------------------------------------------------------------------

  ghost function UsedOf(): seq<Kvp> -> nat { (t: seq<Kvp>) => Used(t) }

  /** The slots of all tables that are not empty: each insertion that is counted fills one more. */
  ghost function TotalUsed(tables: seq<seq<Kvp>>): nat { Sum(tables, UsedOf()) }

  /** One table changes. */
  lemma TotalChanged(c: seq<seq<Kvp>>, c': seq<seq<Kvp>>, i: nat)
    requires i < |c| == |c'| && forall j :: 0 <= j < |c| && j != i ==> c'[j] == c[j]
    ensures TotalUsed(c') == TotalUsed(c) - Used(c[i]) + Used(c'[i])
  {
    hide Used;
    assert c' == c[i := c'[i]];
    SumUpdate(c, i, c'[i], UsedOf());
  }

  /** One table is added. */
  lemma TotalGrown(c: seq<seq<Kvp>>, t: seq<Kvp>)
    ensures TotalUsed(c + [t]) == TotalUsed(c) + Used(t)
  {
    hide Used;
    SumSnoc(c, t, UsedOf());
  }

  lemma {:induction false} TotalSame(c: seq<seq<Kvp>>, c': seq<seq<Kvp>>)
    requires |c| == |c'| && forall j :: 0 <= j < |c| ==> Used(c'[j]) == Used(c[j])
    ensures TotalUsed(c') == TotalUsed(c)
  {
    hide Used;
    if c != [] {
      var n := |c| - 1;
      TotalSame(c[..n], c'[..n]);
    }
  }

  /** A table of n empty slots. */
  ghost function NewTable(n: nat): seq<Kvp> { seq(n, _ => Kvp(Empty, null)) }

  lemma NewUnused(n: nat)
    ensures Used(NewTable(n)) == 0
  {
    SumZero(NewTable(n), IsUsed());
  }

  /** A thread found in an older table moves to the main table. */
  lemma CountMove(owner: map<nat, Producer>, main: seq<Kvp>, count: nat, id: nat, i: nat, main': seq<Kvp>)
    requires CountOk(owner, main, count) && id in owner && !Has(main, id)
    requires i < |main| && !main[i].key.Owned? && main' == main[i := Kvp(Owned(id), owner[id])]
    requires Has(main', id) && forall other: nat :: other != id ==> (Has(main', other) <==> Has(main, other))
    ensures CountOk(owner, main', count) && Used(main) <= Used(main')
  {
    UsedUpdate(main, i, main'[i]);
    assert OnlyOlder(owner, main') == OnlyOlder(owner, main) - {id};
    assert id in OnlyOlder(owner, main);
  }

  /** There is always room for it. */
  lemma RoomToMove(owner: map<nat, Producer>, main: seq<Kvp>, count: nat, id: nat)
    requires CountOk(owner, main, count) && id in owner && !Has(main, id)
    ensures Used(main) + 1 <= count
  {
    assert id in OnlyOlder(owner, main);
  }

  /** A new thread is inserted in the main table; a reused slot was counted before. */
  lemma CountInsert(owner: map<nat, Producer>, main: seq<Kvp>, count: nat, h: nat, id: nat, i: nat, p: Producer, main': seq<Kvp>)
    requires CountOk(owner, main, count) && id !in owner && PlacedFirst(main, main', h, id, p, i)
    requires Has(main', id) && forall other: nat :: other != id ==> (Has(main', other) <==> Has(main, other))
    ensures CountOk(owner[id := p], main', if main[i].key.Reusable? then count else count + 1)
    ensures Used(main') == Used(main) + if main[i].key.Reusable? then 0 else 1
  {
    UsedUpdate(main, i, main'[i]);
    assert OnlyOlder(owner[id := p], main') == OnlyOlder(owner, main);
    assert owner[id := p].Keys == owner.Keys + {id};
    assert |owner[id := p].Keys| == |owner.Keys| + 1;
  }

  /** A new main table has every thread still in older ones. */
  lemma CountNewTable(owner: map<nat, Producer>, main: seq<Kvp>, count: nat, main': seq<Kvp>)
    requires CountOk(owner, main, count) && forall i :: 0 <= i < |main'| ==> main'[i].key.Empty?
    ensures CountOk(owner, main', count)
  {
    SumZero(main', IsUsed());
    SumZero(main', IsReusable());
    assert OnlyOlder(owner, main') == owner.Keys;
  }

  /** The table no longer has the thread, and all others as before. */
  ghost predicate LeftBy(t: seq<Kvp>, t': seq<Kvp>, id: nat) {
    forall other: nat :: Has(t', other) <==> Has(t, other) && other != id
  }

  ghost predicate Exited(t: seq<Kvp>, t': seq<Kvp>, id: nat, i: nat) {
    if Has(t, id) then i < |t| && t[i].key == Owned(id) && t' == t[i := Kvp(Reusable, t[i].value)] else t' == t
  }

  lemma ExitedUsed(t: seq<Kvp>, t': seq<Kvp>, id: nat, i: nat)
    requires Exited(t, t', id, i)
    ensures Used(t') == Used(t)
  {
    if Has(t, id) {
      UsedUpdate(t, i, t'[i]);
    }
  }

  /** A thread exits: its slot in the main table, if it has one, can be reused. */
  lemma CountExit(owner: map<nat, Producer>, main: seq<Kvp>, count: nat, id: nat, i: nat, main': seq<Kvp>)
    requires CountOk(owner, main, count) && id in owner
    requires Exited(main, main', id, i) && LeftBy(main, main', id)
    ensures CountOk(owner - {id}, main', count)
  {
    if Has(main, id) {
      UsedUpdate(main, i, main'[i]);
    }
    assert OnlyOlder(owner - {id}, main') <= OnlyOlder(owner, main);
    SubsetSize(OnlyOlder(owner - {id}, main'), OnlyOlder(owner, main));
    assert (owner - {id}).Keys == owner.Keys - {id};
    assert |(owner - {id}).Keys| == |owner.Keys| - 1;
  }

  lemma {:induction false} SubsetSize(a: set<nat>, b: set<nat>)
    requires a <= b
    ensures |a| <= |b|
  {
    if a != {} {
      var x :| x in a;
      SubsetSize(a - {x}, b - {x});
    }
  }

  // -------------------------------------------------------------------
  // Producers
  // -------------------------------------------------------------------

  ghost predicate Injective(owner: map<nat, Producer>) {
    forall a, b :: a in owner && b in owner && a != b ==> owner[a] != owner[b]
  }

  /** The active producers are those of the threads, one each. */
  ghost predicate ProducersOk(producers: seq<Producer>, owner: map<nat, Producer>)
    reads producers
  {
    && Injective(owner)
    && (forall i, j :: 0 <= i < j < |producers| ==> producers[i] != producers[j])
    && (forall id :: id in owner ==> owner[id] in producers && !owner[id].inactive)
    && (forall i :: 0 <= i < |producers| && !producers[i].inactive ==> exists id :: id in owner && owner[id] == producers[i])
  }

  // -------------------------------------------------------------------
  // The tables
  // -------------------------------------------------------------------

  class ProducerHash {
    const capacity: nat
    const entries: array<Kvp>
    const prev: ProducerHash?

    constructor (capacity: nat, prev: ProducerHash?)
      ensures this.capacity == capacity == entries.Length && this.prev == prev && fresh(entries)
      ensures entries[..] == NewTable(capacity)
    {
      this.capacity := capacity;
      this.prev := prev;
      entries := new Kvp[capacity](_ => Kvp(Empty, null));
    }
  }

  lemma EmptyTableOk(t: seq<Kvp>, hash: nat -> nat, owner: map<nat, Producer>)
    requires |t| > 0 && forall i :: 0 <= i < |t| ==> t[i].key.Empty?
    ensures TableOk(t, hash, owner)
  {
    SumZero(t, IsUsed());
  }

  lemma FoundOwner(t: seq<Kvp>, hash: nat -> nat, owner: map<nat, Producer>, id: nat, index: nat)
    requires TableOk(t, hash, owner) && index < |t| && t[index].key == Owned(id)
    ensures id in owner && t[index].value == owner[id]
  {
  }

  ghost predicate PowerOfTwo(n: nat) { exists e: nat :: n == Pow2(e) }

  /** Tables of their own, each linked to the one before. */
  ghost predicate Listed(tables: seq<ProducerHash>) {
    && (forall i :: 0 <= i < |tables| ==>
          && tables[i].capacity == tables[i].entries.Length && PowerOfTwo(tables[i].capacity) && tables[i].capacity >= 2
          && tables[i].prev == if i == 0 then null else tables[i - 1])
    && (forall i, j :: 0 <= i < j < |tables| ==> tables[i].entries != tables[j].entries)
  }

  lemma PrevLink(tables: seq<ProducerHash>, k: nat)
    requires Listed(tables) && k < |tables|
    ensures tables[k].prev == if k == 0 then null else tables[k - 1]
  {
  }

  lemma ListGrown(tables: seq<ProducerHash>, h: ProducerHash)
    requires tables != [] && Listed(tables) && h.capacity == h.entries.Length && PowerOfTwo(h.capacity) && h.capacity >= 2
    requires h.prev == tables[|tables| - 1] && forall i :: 0 <= i < |tables| ==> tables[i].entries != h.entries
    ensures Listed(tables + [h])
  {
    var ts := tables + [h];
    forall i | 0 <= i < |ts|
      ensures ts[i].capacity == ts[i].entries.Length && PowerOfTwo(ts[i].capacity) && ts[i].capacity >= 2
      ensures ts[i].prev == if i == 0 then null else ts[i - 1]
    {
      if i < |tables| {
        PrevLink(tables, i);
        assert ts[i] == tables[i];
        assert i > 0 ==> ts[i - 1] == tables[i - 1];
      }
    }
    forall i, j | 0 <= i < j < |ts| ensures ts[i].entries != ts[j].entries {
      assert ts[i] == tables[i];
      assert j < |tables| ==> ts[j] == tables[j];
    }
  }

  /** The least power of two from 2 * capacity on that is more than twice the count. */
  method NewCapacity(newCount: nat, capacity: nat) returns (newCapacity: nat)
    requires PowerOfTwo(capacity) && capacity >= 2
    ensures PowerOfTwo(newCapacity) && newCapacity >= 2 * capacity && newCount < newCapacity / 2
    ensures newCapacity > 2 * capacity ==> newCapacity / 4 <= newCount && newCapacity >= 4 * capacity
  {
    hide PowerOfTwo;
    PowerTwice(capacity);
    newCapacity := capacity * 2;
    while newCount >= newCapacity / 2
      invariant PowerOfTwo(newCapacity) && newCapacity >= 2 * capacity
      invariant newCapacity > 2 * capacity ==> newCapacity / 4 <= newCount && newCapacity >= 4 * capacity
      decreases 2 * newCount + 1 - newCapacity
    {
      PowerTwice(newCapacity);
      newCapacity := newCapacity * 2;
    }
  }

  /** Every table is in order, and every thread is in some table. */
  ghost predicate AllOk(tables: seq<ProducerHash>, hash: nat -> nat, owner: map<nat, Producer>)
    reads set t | t in tables :: t.entries
  {
    && (forall i :: 0 <= i < |tables| ==> TableOk(tables[i].entries[..], hash, owner))
    && (forall id :: id in owner ==> exists i :: 0 <= i < |tables| && Has(tables[i].entries[..], id))
  }

  lemma AllOkGrown(tables: seq<ProducerHash>, h: ProducerHash, hash: nat -> nat, owner: map<nat, Producer>)
    requires AllOk(tables, hash, owner) && TableOk(h.entries[..], hash, owner)
    ensures AllOk(tables + [h], hash, owner)
  {
    hide TableOk;
    hide Has;
    var ts := tables + [h];
    forall i | 0 <= i < |ts| ensures TableOk(ts[i].entries[..], hash, owner) {
      assert ts[i] == if i < |tables| then tables[i] else h;
    }
    forall id | id in owner ensures exists i :: 0 <= i < |ts| && Has(ts[i].entries[..], id) {
      var i :| 0 <= i < |tables| && Has(tables[i].entries[..], id);
      assert ts[i] == tables[i];
    }
  }

  /** What a change of the main table, the last one, to get thread id leaves of the rest. */
  lemma AllOkChanged(tables: seq<ProducerHash>, old0: seq<seq<Kvp>>, hash: nat -> nat, owner0: map<nat, Producer>,
                     owner: map<nat, Producer>, id: nat)
    requires tables != [] && |old0| == |tables| && id in owner && owner.Keys == owner0.Keys + {id}
    requires forall i :: 0 <= i < |tables| - 1 ==> tables[i].entries[..] == old0[i] && TableOk(old0[i], hash, owner)
    requires var main := tables[|tables| - 1].entries[..];
             && TableOk(main, hash, owner) && Has(main, id)
             && forall other: nat :: other != id ==> (Has(main, other) <==> Has(old0[|tables| - 1], other))
    requires forall other :: other in owner0 ==> exists i :: 0 <= i < |old0| && Has(old0[i], other)
    ensures AllOk(tables, hash, owner)
  {
    hide TableOk;
    hide Has;
    forall other | other in owner ensures exists i :: 0 <= i < |tables| && Has(tables[i].entries[..], other) {
      if other == id {
        assert Has(tables[|tables| - 1].entries[..], other);
      } else {
        var i :| 0 <= i < |old0| && Has(old0[i], other);
        assert Has(tables[i].entries[..], other);
      }
    }
  }

  lemma AllOkGains(tables: seq<ProducerHash>, hash: nat -> nat, owner: map<nat, Producer>, id: nat, p: Producer)
    requires AllOk(tables, hash, owner) && id !in owner
    ensures forall i :: 0 <= i < |tables| ==> TableOk(tables[i].entries[..], hash, owner[id := p]) && !Has(tables[i].entries[..], id)
  {
    forall i | 0 <= i < |tables|
      ensures TableOk(tables[i].entries[..], hash, owner[id := p]) && !Has(tables[i].entries[..], id)
    {
      assert TableOk(tables[i].entries[..], hash, owner);
    }
  }

  lemma AllOkExit(tables: seq<ProducerHash>, old0: seq<seq<Kvp>>, hash: nat -> nat, owner: map<nat, Producer>, id: nat)
    requires |old0| == |tables|
    requires forall other :: other in owner ==> exists i :: 0 <= i < |old0| && Has(old0[i], other)
    requires forall i :: 0 <= i < |tables| ==>
               LeftBy(old0[i], tables[i].entries[..], id) && TableOk(tables[i].entries[..], hash, owner - {id})
    ensures AllOk(tables, hash, owner - {id})
  {
    hide TableOk;
    hide Has;
    forall other | other in owner - {id} ensures exists i :: 0 <= i < |tables| && Has(tables[i].entries[..], other) {
      var i :| 0 <= i < |old0| && Has(old0[i], other);
      assert LeftBy(old0[i], tables[i].entries[..], id);
    }
  }

  /** The producer of a thread that exits is nobody's any more. */
  lemma ProducersLeft(producers: seq<Producer>, owner: map<nat, Producer>, id: nat)
    requires id in owner && owner[id].inactive && Injective(owner)
    requires forall i, j :: 0 <= i < j < |producers| ==> producers[i] != producers[j]
    requires forall o :: o in owner && o != id ==> owner[o] in producers && !owner[o].inactive
    requires forall i :: 0 <= i < |producers| && !producers[i].inactive ==> exists o :: o in owner && owner[o] == producers[i]
    ensures ProducersOk(producers, owner - {id})
  {
    var owner' := owner - {id};
    forall i | 0 <= i < |producers| && !producers[i].inactive ensures exists o :: o in owner' && owner'[o] == producers[i] {
      var o :| o in owner && owner[o] == producers[i];
      assert owner'[o] == producers[i];
    }
  }

  lemma PowerTwice(n: nat)
    requires PowerOfTwo(n)
    ensures PowerOfTwo(2 * n)
  {
    var e: nat :| n == Pow2(e);
    assert Pow2(e + 1) == 2 * Pow2(e);
  }

  class ProducerTable {
    var implicitProducerHash: ProducerHash
    var implicitProducerHashCount: nat

    /** The producer list, from producerListTail on. */
    var producers: seq<Producer>

    /** hash_thread_id */
    const hashThreadId: nat -> nat

    /** The tables, oldest first. */
    ghost var tables: seq<ProducerHash>
    ghost var owner: map<nat, Producer>

    ghost predicate ListOk()
      reads this`tables, this`implicitProducerHash
    {
      tables != [] && implicitProducerHash == tables[|tables| - 1] && Listed(tables)
    }

    ghost function Snapshot(): (c: seq<seq<Kvp>>)
      reads this`tables, set t | t in tables :: t.entries
      ensures |c| == |tables| && forall i :: 0 <= i < |tables| ==> c[i] == tables[i].entries[..]
    {
      var ts := tables;
      seq(|ts|, i requires 0 <= i < |ts| reads set t | t in ts :: t.entries => ts[i].entries[..])
    }

    /** The slots of all tables that are not empty. */
    ghost function AllUsed(): nat
      reads this`tables, set t | t in tables :: t.entries
    {
      TotalUsed(Snapshot())
    }

    ghost predicate TablesOk()
      reads this`tables, this`owner, set t | t in tables :: t.entries
    {
      AllOk(tables, hashThreadId, owner)
    }

    ghost predicate Valid()
      reads this, producers, set t | t in tables :: t.entries
    {
      && ListOk() && TablesOk() && ProducersOk(producers, owner)
      && CountOk(owner, implicitProducerHash.entries[..], implicitProducerHashCount)
      && implicitProducerHashCount < implicitProducerHash.capacity / 2
      && implicitProducerHashCount <= AllUsed()
    }

    constructor (hashThreadId: nat -> nat)
      ensures Valid() && owner == map[] && this.hashThreadId == hashThreadId && fresh(implicitProducerHash.entries)
      ensures implicitProducerHashCount == 0 && producers == [] && tables == [implicitProducerHash]
      ensures implicitProducerHash.entries[..] == NewTable(INITIAL_IMPLICIT_PRODUCER_HASH_SIZE)
    {
      this.hashThreadId := hashThreadId;
      implicitProducerHash := new ProducerHash(INITIAL_IMPLICIT_PRODUCER_HASH_SIZE, null);
      implicitProducerHashCount := 0;
      producers := [];
      owner := map[];
      tables := [implicitProducerHash];
      new;
      assert implicitProducerHash.capacity == Pow2(5);
      var t := implicitProducerHash.entries[..];
      SumZero(t, IsUsed());
      SumZero(t, IsReusable());
      assert OnlyOlder(owner, t) == {};
    }

    /** Looks for the thread in the main table and then in each older one. */
    method Search(id: nat, hashedId: nat) returns (hash: ProducerHash?, value: Producer?)
      requires ListOk() && TablesOk() && hashedId == hashThreadId(id)
      ensures hash == null <==> id !in owner
      ensures hash != null ==> value == owner[id] && (hash == implicitProducerHash <==> Has(implicitProducerHash.entries[..], id))
    {
      hide TableOk;
      hide Has;
      hash := implicitProducerHash;
      value := null;
      ghost var k := |tables|;
      while hash != null
        invariant 0 <= k <= |tables| && hash == if k == 0 then null else tables[k - 1]
        invariant forall j :: k <= j < |tables| ==> !Has(tables[j].entries[..], id)
        decreases k
      {
        var found, index := Find(hash.entries, hashedId, id, hashThreadId, owner);
        if found {
          value := hash.entries[index].value;
          FoundOwner(hash.entries[..], hashThreadId, owner, id, index);
          return;
        }
        PrevLink(tables, k - 1);
        hash := hash.prev;
        k := k - 1;
      }
    }

    lemma ListFacts()
      requires ListOk()
      ensures tables != [] && implicitProducerHash == tables[|tables| - 1]
      ensures implicitProducerHash.capacity == implicitProducerHash.entries.Length
      ensures forall i :: 0 <= i < |tables| - 1 ==> tables[i].entries != implicitProducerHash.entries
    {
    }

    /** A thread found in an older table is added to the main one; there is room, as all are counted there. */
    method AddToMain(id: nat, hashedId: nat, value: Producer)
      requires Valid() && hashedId == hashThreadId(id) && id in owner && owner[id] == value
      requires !Has(implicitProducerHash.entries[..], id)
      modifies implicitProducerHash.entries
      ensures Valid() && Has(implicitProducerHash.entries[..], id)
      ensures exists i :: PlacedFirst(old(implicitProducerHash.entries[..]), implicitProducerHash.entries[..], hashedId, id, value, i)
    {
      hide TableOk;
      hide Has;
      hide CountOk;
      hide ProducersOk;
      hide FirstFree;
      hide Used;
      hide AllUsed;
      ListFacts();
      hide Listed;
      ghost var main := implicitProducerHash.entries[..];
      RoomToMove(owner, main, implicitProducerHashCount, id);
      Absent(main, hashThreadId, owner, id);
      var reused;
      ghost var index;
      reused, index := PlaceInMain(id, hashedId, value, owner, owner);
      CountMove(owner, main, implicitProducerHashCount, id, index, implicitProducerHash.entries[..]);
    }

    method PlaceInMain(id: nat, hashedId: nat, value: Producer, ghost owner0: map<nat, Producer>, ghost owner': map<nat, Producer>)
      returns (reused: bool, ghost index: nat)
      requires ListOk() && hashedId == hashThreadId(id) && id in owner' && owner'[id] == value
      requires owner'.Keys == owner0.Keys + {id} && AllOk(tables, hashThreadId, owner0)
      requires forall i :: 0 <= i < |tables| ==> TableOk(tables[i].entries[..], hashThreadId, owner')
      requires var main := implicitProducerHash.entries[..];
               TableOk(main, hashThreadId, owner' - {id}) && !Has(main, id) && 2 * (Used(main) + 1) < |main|
      modifies implicitProducerHash.entries
      ensures AllOk(tables, hashThreadId, owner')
      ensures AllUsed() == old(AllUsed() - Used(implicitProducerHash.entries[..])) + Used(implicitProducerHash.entries[..])
      ensures var main, main' := old(implicitProducerHash.entries[..]), implicitProducerHash.entries[..];
              && PlacedFirst(main, main', hashedId, id, value, index)
              && (reused <==> main[index].key.Reusable?)
              && Has(main', id) && forall other: nat :: other != id ==> (Has(main', other) <==> Has(main, other))
    {
      hide TableOk;
      hide Has;
      hide Used;
      ListFacts();
      hide Listed;
      ghost var old0 := Snapshot();
      reused, index := Place(implicitProducerHash.entries, hashedId, id, value, hashThreadId, owner');
      AllOkChanged(tables, old0, hashThreadId, owner0, owner', id);
      TotalChanged(old0, Snapshot(), |tables| - 1);
    }

    /** Every producer of the list belongs to a thread. */
    ghost predicate AllActive()
      reads this`producers, producers
    {
      forall i :: 0 <= i < |producers| ==> !producers[i].inactive
    }

    /** Producer i is the first in the list that belongs to none. */
    ghost predicate FirstInactive(i: nat)
      reads this`producers, producers
    {
      i < |producers| && producers[i].inactive && forall j :: 0 <= j < i ==> !producers[j].inactive
    }

    /** recycle_or_create_producer: the first inactive one in the list, or a new one at its front. */
    method RecycleOrCreateProducer(alloc: bool) returns (p: Producer?)
      requires ProducersOk(producers, owner)
      modifies this`producers, producers
      ensures p == null <==> !alloc && old(AllActive())
      ensures p == null ==> ProducersOk(producers, owner)
      ensures p != null ==> p !in owner.Values && forall id: nat :: id !in owner ==> ProducersOk(producers, owner[id := p])
      ensures if old(AllActive()) then p != null ==> fresh(p) && producers == [p] + old(producers)
              else producers == old(producers) && exists i: nat :: old(FirstInactive(i)) && p == producers[i]
      ensures p == null ==> producers == old(producers)
      ensures forall q :: q in old(producers) && q != p ==> q.inactive == old(q.inactive)
    {
      var i := 0;
      while i < |producers|
        invariant 0 <= i <= |producers|
        invariant forall j :: 0 <= j < i ==> !producers[j].inactive
      {
        if producers[i].inactive {
          assert FirstInactive(i);
          p := producers[i];
          p.inactive := false;
          Activated(i, p);
          return;
        }
        i := i + 1;
      }
      p := null;
      if alloc {
        p := new Producer();
        producers := [p] + producers;
        Activated(0, p);
      }
    }

    lemma Activated(i: nat, p: Producer)
      requires i < |producers| && producers[i] == p && !p.inactive && p !in owner.Values && Injective(owner)
      requires forall i, j :: 0 <= i < j < |producers| ==> producers[i] != producers[j]
      requires forall id :: id in owner ==> owner[id] in producers && !owner[id].inactive
      requires forall j :: 0 <= j < |producers| && j != i && !producers[j].inactive ==>
                 exists id :: id in owner && owner[id] == producers[j]
      ensures forall id: nat :: id !in owner ==> ProducersOk(producers, owner[id := p])
    {
      forall id: nat | id !in owner ensures ProducersOk(producers, owner[id := p]) {
        var owner' := owner[id := p];
        forall j | 0 <= j < |producers| && !producers[j].inactive ensures exists o :: o in owner' && owner'[o] == producers[j] {
          if j == i {
            assert owner'[id] == producers[j];
          } else {
            var o :| o in owner && owner[o] == producers[j];
            assert owner'[o] == producers[j];
          }
        }
      }
    }

    /** A new and empty main table in front of the others. */
    method AddTable(newCapacity: nat, ghost count: nat)
      requires ListOk() && TablesOk() && CountOk(owner, implicitProducerHash.entries[..], count)
      requires PowerOfTwo(newCapacity) && newCapacity >= 2
      modifies this`implicitProducerHash, this`tables
      ensures ListOk() && TablesOk() && CountOk(owner, implicitProducerHash.entries[..], count)
      ensures implicitProducerHash.capacity == newCapacity && fresh(implicitProducerHash.entries)
      ensures implicitProducerHash.entries[..] == NewTable(newCapacity)
      ensures tables == old(tables) + [implicitProducerHash] && implicitProducerHash.prev == old(implicitProducerHash)
      ensures AllUsed() == old(AllUsed())
    {
      hide Snapshot;
      hide TotalUsed;
      hide TableOk;
      hide Has;
      hide CountOk;
      hide PowerOfTwo;
      hide Listed;
      hide AllOk;
      ghost var es := set t | t in tables :: t.entries;
      var newHash := new ProducerHash(newCapacity, implicitProducerHash);
      EmptyTableOk(newHash.entries[..], hashThreadId, owner);
      CountNewTable(owner, implicitProducerHash.entries[..], count, newHash.entries[..]);
      assert newHash.entries !in es && forall i :: 0 <= i < |tables| ==> tables[i].entries in es;
      ListGrown(tables, newHash);
      AllOkGrown(tables, newHash, hashThreadId, owner);
      TotalGrown(Snapshot(), newHash.entries[..]);
      NewUnused(newCapacity);
      implicitProducerHash := newHash;
      tables := tables + [newHash];
      assert Snapshot() == old(Snapshot()) + [newHash.entries[..]];
    }

    /** The main table, and the list of tables, were those: now there is a new main table, twice as large. */
    ghost predicate Doubled(main: ProducerHash, older: seq<ProducerHash>)
      reads this`implicitProducerHash, this`tables
    {
      && implicitProducerHash.capacity == 2 * main.capacity && implicitProducerHash.prev == main
      && tables == older + [implicitProducerHash]
    }

    /** Makes the main table large enough for newCount threads, if memory allows. */
    method GrowTable(newCount: nat, alloc: bool) returns (ok: bool)
      requires ListOk() && TablesOk() && 0 < newCount <= implicitProducerHash.capacity / 2
      requires CountOk(owner, implicitProducerHash.entries[..], newCount - 1)
      modifies this`implicitProducerHash, this`tables
      ensures ListOk() && TablesOk() && CountOk(owner, implicitProducerHash.entries[..], newCount - 1)
      ensures ok <==> old(newCount < implicitProducerHash.capacity / 2) || alloc
      ensures ok ==> newCount < implicitProducerHash.capacity / 2
      ensures AllUsed() == old(AllUsed())
      ensures if old(newCount >= implicitProducerHash.capacity / 2) && alloc then Doubled(old(implicitProducerHash), old(tables))
                   && fresh(implicitProducerHash.entries) && implicitProducerHash.entries[..] == NewTable(implicitProducerHash.capacity)
              else implicitProducerHash == old(implicitProducerHash) && tables == old(tables)
    {
      hide TableOk;
      hide Has;
      hide CountOk;
      hide PowerOfTwo;
      hide AllUsed;
      var mainHash := implicitProducerHash;
      ok := true;
      if newCount >= mainHash.capacity / 2 {
        var newCapacity := NewCapacity(newCount, mainHash.capacity);
        assert newCapacity == 2 * mainHash.capacity;
        if !alloc {
          return false;
        }
        AddTable(newCapacity, newCount - 1);
      }
    }

    /** The tables as they are when a new thread is about to get its slot. */
    lemma InsertReady(id: nat, p: Producer)
      requires ListOk() && TablesOk() && id !in owner
      requires 0 < implicitProducerHashCount < implicitProducerHash.capacity / 2
      requires CountOk(owner, implicitProducerHash.entries[..], implicitProducerHashCount - 1)
      ensures owner[id := p].Keys == owner.Keys + {id} && owner[id := p] - {id} == owner
      ensures forall i :: 0 <= i < |tables| ==> TableOk(tables[i].entries[..], hashThreadId, owner[id := p])
      ensures var main := implicitProducerHash.entries[..];
              TableOk(main, hashThreadId, owner) && !Has(main, id) && 2 * (Used(main) + 1) < |main|
    {
      hide TableOk;
      hide Has;
      hide AllOk;
      hide OnlyOlder;
      hide ReusableSlots;
      hide PowerOfTwo;
      ListFacts();
      hide Listed;
      AllOkGains(tables, hashThreadId, owner, id, p);
      MainOk();
    }

    /** A new thread gets its slot in the main table; `count` is that of the slots before. */
    method TakeSlot(id: nat, hashedId: nat, p: Producer, ghost count: nat) returns (reused: bool, ghost index: nat)
      requires ListOk() && TablesOk() && id !in owner && hashedId == hashThreadId(id)
      requires 0 < implicitProducerHashCount < implicitProducerHash.capacity / 2 && count == implicitProducerHashCount - 1
      requires CountOk(owner, implicitProducerHash.entries[..], count)
      modifies this`owner, implicitProducerHash.entries
      ensures TablesOk() && owner == old(owner)[id := p]
      ensures PlacedFirst(old(implicitProducerHash.entries[..]), implicitProducerHash.entries[..], hashedId, id, p, index)
      ensures CountOk(owner, implicitProducerHash.entries[..], if reused then count else count + 1)
      ensures AllUsed() == old(AllUsed()) + if reused then 0 else 1
    {
      hide TableOk;
      hide Has;
      hide AllOk;
      hide CountOk;
      hide Used;
      hide PowerOfTwo;
      InsertReady(id, p);
      ListFacts();
      hide Listed;
      hide PlacedFirst;
      hide AllUsed;
      ghost var main, owner0 := implicitProducerHash.entries[..], owner;
      ghost var owner' := owner[id := p];
      reused, index := PlaceInMain(id, hashedId, p, owner0, owner');
      owner := owner';
      CountInsert(owner0, main, count, hashedId, id, index, p, implicitProducerHash.entries[..]);
    }

    /** A slot that is reused was counted before. */
    method Insert(id: nat, hashedId: nat, p: Producer) returns (ghost index: nat)
      requires ListOk() && TablesOk() && id !in owner && ProducersOk(producers, owner[id := p]) && hashedId == hashThreadId(id)
      requires 0 < implicitProducerHashCount < implicitProducerHash.capacity / 2
      requires CountOk(owner, implicitProducerHash.entries[..], implicitProducerHashCount - 1)
      requires implicitProducerHashCount - 1 <= AllUsed()
      modifies this`implicitProducerHashCount, this`owner, implicitProducerHash.entries
      ensures Valid() && owner == old(owner)[id := p]
      ensures PlacedFirst(old(implicitProducerHash.entries[..]), implicitProducerHash.entries[..], hashedId, id, p, index)
      ensures implicitProducerHashCount - AllUsed() == old(implicitProducerHashCount - 1 - AllUsed())
    {
      hide ProducersOk;
      hide AllOk;
      hide CountOk;
      hide PowerOfTwo;
      hide Listed;
      hide PlacedFirst;
      hide AllUsed;
      var reused;
      reused, index := TakeSlot(id, hashedId, p, implicitProducerHashCount - 1);
      if reused {
        implicitProducerHashCount := implicitProducerHashCount - 1;
      }
    }

    lemma MainOk()
      requires ListOk() && TablesOk()
      ensures TableOk(implicitProducerHash.entries[..], hashThreadId, owner)
    {
      hide TableOk;
    }

    /** One thread more, and the main table is half full. */
    ghost predicate HalfFull()
      reads this`implicitProducerHash, this`implicitProducerHashCount
    {
      implicitProducerHashCount + 1 >= implicitProducerHash.capacity / 2
    }

    /** A thread without a producer is counted and gets one, if there is memory for what that takes. */
    method AddThread(id: nat, hashedId: nat, allocTable: bool, allocProducer: bool) returns (p: Producer?)
      requires Valid() && id !in owner && hashedId == hashThreadId(id)
      modifies this`implicitProducerHash, this`implicitProducerHashCount, this`producers, this`tables, this`owner
      modifies implicitProducerHash.entries, producers
      ensures Valid()
      ensures p == null ==> owner == old(owner)
      ensures p != null ==> owner == old(owner)[id := p] && p !in old(owner).Values
      ensures p == null <==> (old(HalfFull()) && !allocTable) || (old(AllActive()) && !allocProducer)
      ensures if old(HalfFull()) && allocTable then Doubled(old(implicitProducerHash), old(tables))
              else implicitProducerHash == old(implicitProducerHash) && tables == old(tables)
      ensures p == null ==> implicitProducerHashCount == old(implicitProducerHashCount) && AllUsed() == old(AllUsed())
      ensures p != null ==> implicitProducerHashCount - old(implicitProducerHashCount) == AllUsed() - old(AllUsed())
      ensures var main := if old(HalfFull()) && allocTable then NewTable(implicitProducerHash.capacity)
                          else old(implicitProducerHash.entries[..]);
              if p == null then implicitProducerHash.entries[..] == main
              else exists i: nat :: PlacedFirst(main, implicitProducerHash.entries[..], hashedId, id, p, i)
      ensures if p == null then producers == old(producers)
              else if old(AllActive()) then fresh(p) && producers == [p] + old(producers)
              else producers == old(producers) && exists i: nat :: old(FirstInactive(i)) && p == producers[i]
      ensures forall q :: q in old(producers) && q != p ==> q.inactive == old(q.inactive)
    {
      hide TableOk;
      hide Has;
      hide CountOk;
      hide ProducersOk;
      hide AllOk;
      hide Listed;
      hide Injective;
      hide PowerOfTwo;
      hide OnlyOlder;
      hide AllUsed;
      hide PlacedFirst;
      hide NewTable;
      hide FirstInactive;
      hide AllActive;
      implicitProducerHashCount := implicitProducerHashCount + 1;
      var newCount := implicitProducerHashCount;
      var ok := GrowTable(newCount, allocTable);
      if !ok {
        implicitProducerHashCount := implicitProducerHashCount - 1;
        return null;
      }
      assert newCount < implicitProducerHash.capacity / 2 + implicitProducerHash.capacity / 4;
      p := RecycleOrCreateProducer(allocProducer);
      if p == null {
        implicitProducerHashCount := implicitProducerHashCount - 1;
        return;
      }
      ghost var index := Insert(id, hashedId, p);
    }

    /** No table has a thread without a producer. */
    lemma NotThere(id: nat)
      requires ListOk() && TablesOk() && id !in owner
      ensures !Has(implicitProducerHash.entries[..], id)
    {
      assert TableOk(implicitProducerHash.entries[..], hashThreadId, owner);
    }

    lemma NotInNew(n: nat, id: nat)
      ensures !Has(NewTable(n), id)
    {
    }

    /**
     The producer of a thread: the one it has, or else one that no other thread has. It fails only for a
     thread without one, exactly when the main table would be half full and there is no memory for a larger one,
     or no producer is inactive and there is no memory for another.
    */
    method GetOrAddImplicitProducer(id: nat, allocTable: bool, allocProducer: bool) returns (p: Producer?)
      requires Valid()
      modifies this`implicitProducerHash, this`implicitProducerHashCount, this`producers, this`tables, this`owner
      modifies implicitProducerHash.entries, producers
      ensures Valid()
      ensures id in old(owner) ==> p == old(owner)[id] && owner == old(owner)
      ensures id !in old(owner) && p == null ==> owner == old(owner)
      ensures id !in old(owner) && p != null ==> owner == old(owner)[id := p] && p !in old(owner).Values
      ensures p == null <==>
                id !in old(owner) && ((old(HalfFull()) && !allocTable) || (old(AllActive()) && !allocProducer))
      ensures if id !in old(owner) && old(HalfFull()) && allocTable then Doubled(old(implicitProducerHash), old(tables))
              else implicitProducerHash == old(implicitProducerHash) && tables == old(tables)
      ensures id in old(owner) || p == null ==> implicitProducerHashCount == old(implicitProducerHashCount)
      ensures id !in old(owner) && p != null ==>
                implicitProducerHashCount - old(implicitProducerHashCount) == AllUsed() - old(AllUsed())
      ensures var main := if id !in old(owner) && old(HalfFull()) && allocTable then NewTable(implicitProducerHash.capacity)
                          else old(implicitProducerHash.entries[..]);
              if p == null || Has(main, id) then implicitProducerHash.entries[..] == main
              else exists i: nat :: PlacedFirst(main, implicitProducerHash.entries[..], hashThreadId(id), id, p, i)
      ensures if id in old(owner) || p == null then producers == old(producers)
              else if old(AllActive()) then fresh(p) && producers == [p] + old(producers)
              else producers == old(producers) && exists i: nat :: old(FirstInactive(i)) && p == producers[i]
      ensures forall q :: q in old(producers) && q != p ==> q.inactive == old(q.inactive)
    {
      hide TableOk;
      hide Has;
      hide CountOk;
      hide ProducersOk;
      hide AllOk;
      hide Listed;
      hide Injective;
      hide PowerOfTwo;
      hide OnlyOlder;
      hide AllUsed;
      hide PlacedFirst;
      hide NewTable;
      hide FirstInactive;
      hide AllActive;
      ghost var main := implicitProducerHash.entries[..];
      if id !in owner {
        NotThere(id);
      }
      var hashedId := hashThreadId(id);
      var hash, value := Search(id, hashedId);
      if hash != null {
        if hash != implicitProducerHash {
          AddToMain(id, hashedId, value);
        }
        return value;
      }
      p := AddThread(id, hashedId, allocTable, allocProducer);
      NotInNew(implicitProducerHash.capacity, id);
    }

    /** The thread's id leaves table k. */
    method LeaveTable(hash: ProducerHash, hashedId: nat, id: nat, ghost k: nat) returns (ghost index: nat)
      requires Listed(tables) && k < |tables| && hash == tables[k] && hashedId == hashThreadId(id)
      requires TableOk(hash.entries[..], hashThreadId, owner)
      modifies hash.entries
      ensures TableOk(hash.entries[..], hashThreadId, owner - {id})
      ensures LeftBy(old(hash.entries[..]), hash.entries[..], id) && Exited(old(hash.entries[..]), hash.entries[..], id, index)
      ensures forall j :: 0 <= j < |tables| && j != k ==> tables[j].entries[..] == old(tables[j].entries[..])
    {
      hide TableOk;
      hide Has;
      index := Free(hash.entries, hashedId, id, hashThreadId, owner);
      forall j | 0 <= j < |tables| && j != k ensures tables[j].entries[..] == old(tables[j].entries[..]) {
        assert tables[j].entries != tables[k].entries;
      }
    }

    /** It leaves them all: the thread may be in any of them. */
    method LeaveTables(hashedId: nat, id: nat) returns (ghost index: nat)
      requires ListOk() && AllOk(tables, hashThreadId, owner) && hashedId == hashThreadId(id)
      modifies set t | t in tables :: t.entries
      ensures AllOk(tables, hashThreadId, owner - {id})
      ensures LeftBy(old(implicitProducerHash.entries[..]), implicitProducerHash.entries[..], id)
      ensures Exited(old(implicitProducerHash.entries[..]), implicitProducerHash.entries[..], id, index)
      ensures AllUsed() == old(AllUsed())
    {
      hide PowerOfTwo;
      hide Used;
      hide ProducersOk;
      hide TableOk;
      hide Has;
      hide LeftBy;
      hide Exited;
      hide Listed;
      hide TotalUsed;
      hide Snapshot;
      var hash: ProducerHash? := implicitProducerHash;
      ghost var k := |tables|;
      ghost var old0 := Snapshot();
      index := 0;
      while hash != null
        invariant 0 <= k <= |tables| && hash == if k == 0 then null else tables[k - 1]
        invariant forall j :: 0 <= j < k ==> tables[j].entries[..] == old0[j]
        invariant forall j :: k <= j < |tables| ==>
                    LeftBy(old0[j], tables[j].entries[..], id) && TableOk(tables[j].entries[..], hashThreadId, owner - {id})
        invariant forall j :: k <= j < |tables| ==> Used(tables[j].entries[..]) == Used(old0[j])
        invariant k < |tables| ==> Exited(old0[|tables| - 1], tables[|tables| - 1].entries[..], id, index)
        decreases k
      {
        PrevLink(tables, k - 1);
        ghost var i := LeaveTable(hash, hashedId, id, k - 1);
        ExitedUsed(old0[k - 1], tables[k - 1].entries[..], id, i);
        index := if k == |tables| then i else index;
        hash := hash.prev;
        k := k - 1;
      }
      AllOkExit(tables, old0, hashThreadId, owner, id);
      TotalSame(old0, Snapshot());
    }

    /** The producer is marked as recyclable. */
    method Deactivate(producer: Producer, ghost id: nat)
      requires id in owner && owner[id] == producer && ProducersOk(producers, owner) && AllOk(tables, hashThreadId, owner - {id})
      modifies producer`inactive
      ensures producer.inactive && ProducersOk(producers, owner - {id}) && AllOk(tables, hashThreadId, owner - {id})
    {
      hide AllOk;
      producer.inactive := true;
      ProducersLeft(producers, owner, id);
    }

    /**
     A thread exits: its id leaves every table, so that it or another thread may be given the slot again, and
     its producer may be recycled.
    */
    method ThreadExited(id: nat, producer: Producer)
      requires Valid() && id in owner && producer == owner[id]
      modifies this`owner, producer`inactive, set t | t in tables :: t.entries
      ensures Valid() && owner == old(owner) - {id} && producer.inactive && AllUsed() == old(AllUsed())
    {
      hide TableOk;
      hide Has;
      hide CountOk;
      hide AllOk;
      hide Listed;
      hide ProducersOk;
      hide LeftBy;
      hide Exited;
      hide AllUsed;
      ghost var main := implicitProducerHash.entries[..];
      ghost var index := LeaveTables(hashThreadId(id), id);
      CountExit(owner, main, implicitProducerHashCount, id, index, implicitProducerHash.entries[..]);
      Deactivate(producer, id);
      owner := owner - {id};
    }
  }
}
