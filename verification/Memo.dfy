/** The decision memo as it is written: a singly linked list under one lock, newest at the tail. */
module Memo {
  import opened Basics
  import opened Timed

  class Node {
    const entry: Entry
    var next: Node?

    constructor (entry: Entry)
      ensures this.entry == entry && next == null
    {
      this.entry := entry;
      next := null;
    }
  }

  function EntriesOf(nodes: seq<Node>): (q: seq<Entry>)
    ensures |q| == |nodes| && forall i :: 0 <= i < |nodes| ==> q[i] == nodes[i].entry
  {
    seq(|nodes|, i requires 0 <= i < |nodes| => nodes[i].entry)
  }

  ghost predicate Distinct(nodes: seq<Node>) {
    forall i, j :: 0 <= i < j < |nodes| ==> nodes[i] != nodes[j]
  }

  /** Each node points at the one after it, and the last at nothing. */
  ghost predicate Linked(nodes: seq<Node>)
    reads nodes
  {
    && (forall i :: 0 <= i < |nodes| - 1 ==> nodes[i].next == nodes[i + 1])
    && (nodes != [] ==> nodes[|nodes| - 1].next == null)
  }

  lemma EntriesWithout(nodes: seq<Node>, i: nat)
    requires i < |nodes|
    ensures EntriesOf(nodes[..i] + nodes[i + 1..]) == EntriesOf(nodes)[..i] + EntriesOf(nodes)[i + 1..]
  {
  }

  function LastNodes(nodes: seq<Node>): seq<Node> {
    if |nodes| <= MAX_ENTRIES then nodes else nodes[|nodes| - MAX_ENTRIES..]
  }

  lemma EntriesTrimmed(nodes: seq<Node>)
    ensures EntriesOf(LastNodes(nodes)) == Trimmed(EntriesOf(nodes))
  {
  }

  class DecisionMemo {
    var head: Node?
    var tail: Node?
    var count: nat
    const ttl: nat
    ghost var nodes: seq<Node>
    ghost var repr: set<Node>

    ghost predicate Chained()
      reads this, repr
    {
      && (forall i :: 0 <= i < |nodes| ==> nodes[i] in repr)
      && Distinct(nodes) && Linked(nodes) && count == |nodes|
      && head == (if nodes == [] then null else nodes[0])
      && tail == (if nodes == [] then null else nodes[|nodes| - 1])
    }

    ghost function Contents(): seq<Entry>
      reads this
    {
      EntriesOf(nodes)
    }

    /** A queue of distinct keys, never longer than the bound. */
    ghost predicate Valid()
      reads this, repr
    {
      Chained() && DistinctKeys(Contents()) && count <= MAX_ENTRIES
    }

    constructor (requested: int)
      ensures Valid() && Contents() == [] && ttl == EffectiveTtl(requested) && repr == {}
    {
      head, tail, count := null, null, 0;
      ttl := EffectiveTtl(requested);
      nodes, repr := [], {};
    }

    /** The node with this key and the one before it. */
    method Find(key: string) returns (prev: Node?, cur: Node?, ghost i: nat)
      requires Chained()
      ensures i <= |nodes| && cur == (if i < |nodes| then nodes[i] else null)
      ensures prev == (if i == 0 then null else nodes[i - 1])
      ensures forall k :: 0 <= k < i ==> nodes[k].entry.key != key
      ensures cur != null ==> cur.entry.key == key
    {
      prev, cur, i := null, head, 0;
      while cur != null && cur.entry.key != key
        invariant i <= |nodes| && cur == (if i < |nodes| then nodes[i] else null)
        invariant prev == (if i == 0 then null else nodes[i - 1])
        invariant forall k :: 0 <= k < i ==> nodes[k].entry.key != key
        decreases |nodes| - i
      {
        prev := cur;
        cur := cur.next;
        i := i + 1;
      }
    }

    /** unlink_key(): the one node with this key, wherever it is. */
    method UnlinkKey(key: string)
      requires Chained() && DistinctKeys(Contents())
      modifies this, repr
      ensures Chained() && Contents() == Without(old(Contents()), key)
      ensures repr == old(repr)
    {
      var prev, cur, i := Find(key);
      if cur != null {
        WithoutAt(Contents(), i);
        Unlink(prev, cur, i);
        EntriesWithout(old(nodes), i);
      } else {
        WithoutAbsent(Contents(), key);
      }
    }

    method Unlink(prev: Node?, cur: Node, ghost i: nat)
      requires Chained() && i < |nodes| && cur == nodes[i] && prev == (if i == 0 then null else nodes[i - 1])
      modifies this, repr
      ensures Chained() && nodes == old(nodes)[..i] + old(nodes)[i + 1..] && repr == old(repr)
    {
      if prev != null { prev.next := cur.next; } else { head := cur.next; }
      if tail == cur { tail := prev; }
      count := count - 1;
      nodes := nodes[..i] + nodes[i + 1..];
    }

    /** evict_oldest() */
    method EvictOldest()
      requires Chained()
      modifies this
      ensures Chained() && nodes == (if old(nodes) == [] then [] else old(nodes)[1..]) && repr == old(repr)
    {
      if head == null { return; }
      head := head.next;
      if head == null { tail := null; }
      count := count - 1;
      nodes := nodes[1..];
    }

    method Append(e: Node)
      requires Chained() && e !in nodes && e.next == null
      modifies this, repr
      ensures Chained() && nodes == old(nodes) + [e] && repr == old(repr) + {e}
    {
      if tail != null { tail.next := e; } else { head := e; }
      tail := e;
      count := count + 1;
      nodes, repr := nodes + [e], repr + {e};
    }

    /** axiam_memo_get() */
    method Get(key: string, now: int) returns (r: Option<Decision>)
      requires Valid()
      modifies this, repr
      ensures Valid()
      ensures ttl == 0 ==> r.None? && Contents() == old(Contents())
      ensures repr == old(repr)
      ensures ttl > 0 ==> r == Hit(old(Contents()), key, now, ttl) && Contents() == AfterGet(old(Contents()), key, now, ttl)
    {
      if ttl == 0 { return None; }
      var cur := head;
      ghost var i := 0;
      while cur != null && cur.entry.key != key
        invariant i <= |nodes| && cur == (if i < |nodes| then nodes[i] else null)
        invariant forall k :: 0 <= k < i ==> nodes[k].entry.key != key
        decreases |nodes| - i
      {
        cur := cur.next;
        i := i + 1;
      }
      if cur == null { return None; }
      FindEntryIs(Contents(), i);
      if now - cur.entry.storedAt >= ttl {
        WithoutKeepsDistinct(Contents(), key);
        UnlinkKey(key);
        return None;
      }
      return Some(cur.entry.value);
    }

    method EvictToBound()
      requires Chained()
      modifies this
      ensures Chained() && nodes == LastNodes(old(nodes)) && repr == old(repr)
    {
      while count > MAX_ENTRIES
        invariant Chained() && LastNodes(nodes) == LastNodes(old(nodes)) && repr == old(repr)
      {
        EvictOldest();
      }
    }

    /** Out of its place, if it had one, and in at the tail. */
    method PutLast(entry: Entry)
      requires Chained() && DistinctKeys(Contents())
      modifies this, repr
      ensures Chained() && Contents() == Without(old(Contents()), entry.key) + [entry]
      ensures fresh(repr - old(repr))
    {
      var e := new Node(entry);
      UnlinkKey(entry.key);
      Append(e);
    }

    /** axiam_memo_put() */
    method Put(key: string, value: Decision, now: int)
      requires Valid()
      modifies this, repr
      ensures Valid()
      ensures fresh(repr - old(repr))
      ensures Contents() == if ttl == 0 then old(Contents()) else AfterPut(old(Contents()), Entry(key, value, now))
    {
      if ttl == 0 { return; }
      PutKeepsKeys(Contents(), Entry(key, value, now));
      PutLast(Entry(key, value, now));
      EntriesTrimmed(nodes);
      EvictToBound();
    }

    /** axiam_memo_clear() */
    method Clear()
      requires Valid()
      modifies this
      ensures Valid() && Contents() == [] && repr == old(repr)
    {
      head, tail, count := null, null, 0;
      nodes := [];
    }
  }
}
