/**
 One hash table of thread ids, probed linearly from the hash of the id: at most half of its
 slots are ever used, a slot once used never becomes empty again, and the slots between the
 hash of an id and its place are all used.
*/
module ProbeTable {
  import opened Sums
  import Integers

  class Producer {
    var inactive: bool

    constructor ()
      ensures !inactive
    {
      inactive := false;
    }
  }

  /** invalid_thread_id, invalid_thread_id2, or a thread's id. */
  datatype Key = Empty | Reusable | Owned(id: nat)

  datatype Kvp = Kvp(key: Key, value: Producer?)

  // -------------------------------------------------------------------
  // Probing
  // -------------------------------------------------------------------

  /** The s-th slot probed from hash h on, and at which probe slot p comes. */
  ghost function Slot(h: int, s: int, n: nat): (p: nat)
    requires 0 < n
    ensures p < n
  {
    (h + s) % n
  }

  ghost function Probe(h: int, p: int, n: nat): (s: nat)
    requires 0 < n
    ensures s < n
  {
    (p - h) % n
  }

  lemma SlotProbe(h: int, p: int, n: nat)
    requires 0 < n && 0 <= p < n
    ensures Slot(h, Probe(h, p, n), n) == p
  {
    Integers.Shift(p - h, h, n);
    Integers.Small(p, n);
  }

  lemma ProbeSlot(h: int, s: int, n: nat)
    requires 0 < n && 0 <= s < n
    ensures Probe(h, Slot(h, s, n), n) == s
  {
    Integers.Shift(h + s, -h, n);
    Integers.Small(s, n);
  }

  lemma SlotNext(h: int, s: int, n: nat)
    requires 0 < n
    ensures (Slot(h, s, n) + 1) % n == Slot(h, s + 1, n)
  {
    Integers.Shift(h + s, 1, n);
  }

  // -------------------------------------------------------------------
  // A table
  // -------------------------------------------------------------------

  ghost function IsUsed(): Kvp -> nat { (e: Kvp) => if e.key.Empty? then 0 else 1 }

  ghost function IsReusable(): Kvp -> nat { (e: Kvp) => if e.key.Reusable? then 1 else 0 }

  ghost function Used(t: seq<Kvp>): nat { Sum(t, IsUsed()) }

  ghost function ReusableSlots(t: seq<Kvp>): nat { Sum(t, IsReusable()) }

  /** No slot from hash h up to p is empty. */
  ghost predicate Reach(t: seq<Kvp>, h: nat, p: nat)
    requires |t| > 0
  {
    forall s: nat :: s < Probe(h, p, |t|) ==> !t[Slot(h, s, |t|)].key.Empty?
  }

  /** Every slot from hash h up to p is some thread's: p is the first place on the way that may be free. */
  ghost predicate FirstFree(t: seq<Kvp>, h: nat, p: nat)
    requires |t| > 0
  {
    forall s: nat :: s < Probe(h, p, |t|) ==> t[Slot(h, s, |t|)].key.Owned?
  }

  /** The id, with its producer, has taken the first slot on its way that was empty or reusable; no other slot has changed. */
  ghost predicate PlacedFirst(t: seq<Kvp>, t': seq<Kvp>, h: nat, id: nat, value: Producer, i: nat) {
    i < |t| && t' == t[i := Kvp(Owned(id), value)] && !t[i].key.Owned? && FirstFree(t, h, i)
  }

  ghost predicate Has(t: seq<Kvp>, id: nat) {
    exists p :: 0 <= p < |t| && t[p].key == Owned(id)
  }

  /** Each id in the table is that of a thread with a producer, is there once with its producer, and is found by probing. */
  ghost predicate TableOk(t: seq<Kvp>, hash: nat -> nat, owner: map<nat, Producer>) {
    && 2 * Used(t) < |t|
    && (forall p :: 0 <= p < |t| && t[p].key.Owned? ==>
          var id := t[p].key.id; id in owner && t[p].value == owner[id] && Reach(t, hash(id), p))
    && (forall p, q :: 0 <= p < q < |t| && t[p].key.Owned? && t[q].key.Owned? ==> t[p].key.id != t[q].key.id)
  }

  /** A table less than half used has an empty slot, so that every probe comes to an end. */
  lemma {:induction false} EmptySlot(t: seq<Kvp>) returns (e: nat)
    requires Used(t) < |t|
    ensures e < |t| && t[e].key.Empty?
  {
    var n := |t| - 1;
    if t[n].key.Empty? {
      e := n;
    } else {
      e := EmptySlot(t[..n]);
    }
  }

  /** An id whose place would come after an empty slot is not in the table. */
  lemma NotBeyond(t: seq<Kvp>, hash: nat -> nat, owner: map<nat, Producer>, id: nat, s: nat)
    requires TableOk(t, hash, owner) && s < |t|
    requires t[Slot(hash(id), s, |t|)].key.Empty?
    requires forall r: nat :: r < s ==> t[Slot(hash(id), r, |t|)].key != Owned(id)
    ensures !Has(t, id)
  {
    if p :| 0 <= p < |t| && t[p].key == Owned(id) {
      SlotProbe(hash(id), p, |t|);
    }
  }

  /** Looks for an id: the loop ends at its slot or at the first empty one. */
  method Find(entries: array<Kvp>, hashedId: nat, id: nat, ghost hash: nat -> nat, ghost owner: map<nat, Producer>)
    returns (found: bool, index: nat)
    requires TableOk(entries[..], hash, owner) && hashedId == hash(id)
    ensures found ==> index < entries.Length && entries[index].key == Owned(id)
    ensures found <==> Has(entries[..], id)
  {
    hide Slot;
    hide Probe;
    var n := entries.Length;
    ghost var t := entries[..];
    ghost var e := EmptySlot(t);
    ghost var s := 0;
    SlotProbe(hashedId, e, n);
    index := hashedId;
    SlotZero(hashedId, n);
    while true
      invariant 0 <= s <= Probe(hashedId, e, n) && index % n == Slot(hashedId, s, n)
      invariant forall r: nat :: r < s ==> t[Slot(hashedId, r, n)].key != Owned(id)
      decreases n - s
    {
      index := index % n;
      var probedKey := entries[index].key;
      if probedKey == Owned(id) {
        return true, index;
      }
      if probedKey == Empty {
        NotBeyond(t, hash, owner, id, s);
        return false, index;
      }
      SlotNext(hashedId, s, n);
      index := index + 1;
      s := s + 1;
    }
  }

  lemma SlotZero(h: nat, n: nat)
    requires 0 < n
    ensures h % n == Slot(h, 0, n)
  {
  }

  // -------------------------------------------------------------------
  // Putting an id in, and taking it out
  // -------------------------------------------------------------------

  /** A change of one slot that does not empty it leaves everything within reach. */
  lemma ReachKept(t: seq<Kvp>, i: nat, e: Kvp, h: nat, p: nat)
    requires i < |t| && Reach(t, h, p) && !e.key.Empty?
    ensures Reach(t[i := e], h, p)
  {
    hide Slot;
    hide Probe;
  }

  lemma UsedUpdate(t: seq<Kvp>, i: nat, e: Kvp)
    requires i < |t| && !e.key.Empty?
    ensures Used(t[i := e]) == Used(t) + if t[i].key.Empty? then 1 else 0
    ensures ReusableSlots(t[i := e]) + (if t[i].key.Reusable? then 1 else 0)
            == ReusableSlots(t) + (if e.key.Reusable? then 1 else 0)
    ensures t[i].key.Reusable? ==> ReusableSlots(t) > 0
  {
    SumUpdate(t, i, e, IsUsed());
    SumUpdate(t, i, e, IsReusable());
  }

  lemma Placed(t: seq<Kvp>, hash: nat -> nat, owner: map<nat, Producer>, id: nat, i: nat, value: Producer)
    requires TableOk(t, hash, owner - {id}) && !Has(t, id) && id in owner && owner[id] == value
    requires i < |t| && Reach(t, hash(id), i) && !t[i].key.Owned? && 2 * (Used(t) + 1) < |t|
    ensures TableOk(t[i := Kvp(Owned(id), value)], hash, owner)
    ensures forall other: nat :: other != id ==> (Has(t[i := Kvp(Owned(id), value)], other) <==> Has(t, other))
    ensures Has(t[i := Kvp(Owned(id), value)], id)
  {
    hide Reach;
    hide Used;
    var e := Kvp(Owned(id), value);
    var t' := t[i := e];
    UsedUpdate(t, i, e);
    assert t'[i].key == Owned(id);
    forall p | 0 <= p < |t'| && t'[p].key.Owned?
      ensures var o := t'[p].key.id; o in owner && t'[p].value == owner[o] && Reach(t', hash(o), p)
    {
      ReachKept(t, i, e, hash(t'[p].key.id), p);
    }
    forall other: nat | other != id ensures Has(t', other) <==> Has(t, other) {
      HasKept(t, i, e, other);
    }
  }

  lemma HasKept(t: seq<Kvp>, i: nat, e: Kvp, other: nat)
    requires i < |t| && t[i].key != Owned(other) && e.key != Owned(other)
    ensures Has(t[i := e], other) <==> Has(t, other)
  {
    if p :| 0 <= p < |t| && t[p].key == Owned(other) {
      assert t[i := e][p].key == Owned(other);
    }
  }

  /** Puts an id that is not in the table into the first slot on its way that is empty or reusable. */
  method Place(entries: array<Kvp>, hashedId: nat, id: nat, value: Producer, ghost hash: nat -> nat, ghost owner: map<nat, Producer>)
    returns (reused: bool, ghost index: nat)
    requires TableOk(entries[..], hash, owner - {id}) && hashedId == hash(id) && !Has(entries[..], id)
    requires id in owner && owner[id] == value && 2 * (Used(entries[..]) + 1) < entries.Length
    modifies entries
    ensures PlacedFirst(old(entries[..]), entries[..], hashedId, id, value, index)
    ensures reused <==> old(entries[..])[index].key.Reusable?
    ensures TableOk(entries[..], hash, owner) && Has(entries[..], id)
    ensures forall other: nat :: other != id ==> (Has(entries[..], other) <==> Has(old(entries[..]), other))
  {
    hide Slot;
    hide Probe;
    hide Used;
    hide TableOk;
    hide Has;
    var n := entries.Length;
    ghost var t := entries[..];
    ghost var e := EmptySlot(t);
    ghost var s := 0;
    SlotProbe(hashedId, e, n);
    SlotZero(hashedId, n);
    var i := hashedId;
    while true
      invariant 0 <= s <= Probe(hashedId, e, n) && i % n == Slot(hashedId, s, n)
      invariant forall r: nat :: r < s ==> t[Slot(hashedId, r, n)].key.Owned?
      invariant entries[..] == t
      decreases n - s
    {
      i := i % n;
      if entries[i].key == Empty || entries[i].key == Reusable {
        reused, index := entries[i].key == Reusable, i;
        ProbeSlot(hashedId, s, n);
        Placed(t, hash, owner, id, i, value);
        entries[i] := Kvp(Owned(id), value);
        return;
      }
      SlotNext(hashedId, s, n);
      i := i + 1;
      s := s + 1;
    }
  }

  lemma Freed(t: seq<Kvp>, hash: nat -> nat, owner: map<nat, Producer>, id: nat, i: nat, value: Producer?)
    requires TableOk(t, hash, owner) && i < |t| && t[i].key == Owned(id)
    ensures TableOk(t[i := Kvp(Reusable, value)], hash, owner - {id})
    ensures forall other: nat :: Has(t[i := Kvp(Reusable, value)], other) <==> Has(t, other) && other != id
  {
    hide Reach;
    hide Used;
    var e := Kvp(Reusable, value);
    var t' := t[i := e];
    UsedUpdate(t, i, e);
    forall p | 0 <= p < |t'| && t'[p].key.Owned?
      ensures var o := t'[p].key.id; o in owner - {id} && t'[p].value == owner[o] && Reach(t', hash(o), p)
    {
      assert t[p].key == t'[p].key;
      ReachKept(t, i, e, hash(t'[p].key.id), p);
    }
    forall p | 0 <= p < |t'| ensures t'[p].key != Owned(id) {
      assert t'[p] == if p == i then e else t[p];
    }
    forall other: nat ensures Has(t', other) <==> Has(t, other) && other != id {
      if other != id {
        HasKept(t, i, e, other);
      }
    }
  }

  /** Without the id, a table that does not have it is as good. */
  lemma Absent(t: seq<Kvp>, hash: nat -> nat, owner: map<nat, Producer>, id: nat)
    requires TableOk(t, hash, owner) && !Has(t, id)
    ensures TableOk(t, hash, owner - {id})
  {
    forall p | 0 <= p < |t| && t[p].key.Owned? ensures t[p].key.id != id { }
  }

  /** Makes the slot of an exiting thread reusable, if the table has its id. */
  method Free(entries: array<Kvp>, hashedId: nat, id: nat, ghost hash: nat -> nat, ghost owner: map<nat, Producer>)
    returns (ghost index: nat)
    requires TableOk(entries[..], hash, owner) && hashedId == hash(id)
    modifies entries
    ensures TableOk(entries[..], hash, owner - {id})
    ensures forall other: nat :: Has(entries[..], other) <==> Has(old(entries[..]), other) && other != id
    ensures if Has(old(entries[..]), id)
            then index < entries.Length && old(entries[..])[index].key == Owned(id)
                 && entries[..] == old(entries[..])[index := Kvp(Reusable, old(entries[..])[index].value)]
            else entries[..] == old(entries[..])
  {
    hide TableOk;
    hide Has;
    ghost var t := entries[..];
    var found, i := Find(entries, hashedId, id, hash, owner);
    index := i;
    if found {
      Freed(t, hash, owner, id, i, entries[i].value);
      entries[i] := entries[i].(key := Reusable);
    } else {
      Absent(t, hash, owner, id);
    }
  }
}
