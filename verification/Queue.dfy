/** A station's queue.  An item stands for its queue id: a UUID, modelled as a number fresh for every item. */
module PlayQueue {
  type Id = int

  function FirstIndex(q: seq<Id>, id: Id): (i: nat)
    ensures i <= |q| && (i < |q| <==> id in q)
    ensures i < |q| ==> q[i] == id
    ensures id !in q[..i]
  {
    if q == [] || q[0] == id then 0 else
    var i := 1 + FirstIndex(q[1..], id);
    assert q[..i] == [q[0]] + q[1..][..i - 1];
    i
  }

  function Without(q: seq<Id>, id: Id): seq<Id> {
    var i := FirstIndex(q, id);
    if i < |q| then q[..i] + q[i + 1..] else q
  }

  /** The part of the queue from id on; all of it when id is not pending. */
  function StartingAt(q: seq<Id>, id: Id): seq<Id> {
    var i := FirstIndex(q, id);
    if i < |q| then q[i..] else q
  }

  /** What SkipTo drops. */
  function Ahead(q: seq<Id>, id: Id): seq<Id> {
    var i := FirstIndex(q, id);
    if i < |q| then q[..i] else []
  }

  lemma FirstIndexUnique(q: seq<Id>, id: Id, i: nat)
    requires i < |q| && q[i] == id && id !in q[..i]
    ensures FirstIndex(q, id) == i
  {
  }

  class Queue {
    var items: seq<Id>

    constructor ()
      ensures items == []
    {
      items := [];
    }

    method Append(item: Id) returns (position: nat)
      modifies this
      ensures items == old(items) + [item] && position == |old(items)|
    {
      items := items + [item];
      return |items| - 1;
    }

    method PushFront(item: Id)
      modifies this
      ensures items == [item] + old(items)
    {
      items := [item] + items;
    }

    method PopFront() returns (item: Id, ok: bool)
      modifies this
      ensures ok == (old(items) != [])
      ensures ok ==> [item] + items == old(items)
      ensures !ok ==> items == old(items)
    {
      if |items| == 0 {
        return 0, false;
      }
      item := items[0];
      items := items[1..];
      return item, true;
    }

    method Remove(id: Id) returns (removed: bool)
      modifies this
      ensures removed == (id in old(items))
      ensures items == Without(old(items), id)
      ensures removed ==> exists i :: 0 <= i < |old(items)| && old(items)[i] == id && id !in old(items)[..i]
                                      && items == old(items)[..i] + old(items)[i + 1..]
      ensures !removed ==> items == old(items)
    {
      for i := 0 to |items|
        invariant items == old(items) && id !in items[..i]
      {
        if items[i] == id {
          FirstIndexUnique(items, id, i);
          items := items[..i] + items[i + 1..];
          return true;
        }
      }
      assert items[..|items|] == items;
      return false;
    }

    method SkipTo(id: Id) returns (removedCount: nat, found: bool)
      modifies this
      ensures found == (id in old(items))
      ensures items == StartingAt(old(items), id) && removedCount == |Ahead(old(items), id)|
      ensures found ==> items != [] && items[0] == id && removedCount <= |old(items)|
                        && old(items) == old(items)[..removedCount] + items && id !in old(items)[..removedCount]
      ensures !found ==> items == old(items) && removedCount == 0
    {
      for i := 0 to |items|
        invariant items == old(items) && id !in items[..i]
      {
        if items[i] == id {
          FirstIndexUnique(items, id, i);
          items := items[i..];
          return i, true;
        }
      }
      assert items[..|items|] == items;
      return 0, false;
    }

    method Clear() returns (n: nat)
      modifies this
      ensures items == [] && n == |old(items)|
    {
      n := |items|;
      items := [];
    }

    method Len() returns (n: nat)
      ensures n == |items|
    {
      return |items|;
    }
  }
}
