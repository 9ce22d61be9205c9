/**
  The player's bag as the battle sees it: a list of item records
  (name and count) searched front to back, and the list of owned monsters.
  Item names are not unique in the data; every operation acts on the FIRST
  entry that carries the name.
*/
module Bags {
  import opened Wrappers

  datatype Item = Item(name: string, count: int)

  /** The saved form of an owned monster, as far as the battle reads and writes it. */
  datatype Monster = Monster(name: string, level: int, maxHp: int, hp: int, spritePath: string)

  /** Position of the first entry named `name`, if there is one. */
  function FirstIndex(items: seq<Item>, name: string): (r: Option<nat>)
    ensures r.Some? ==> r.value < |items| && items[r.value].name == name
    ensures r.Some? ==> forall j :: 0 <= j < r.value ==> items[j].name != name
    ensures r.None? ==> forall j :: 0 <= j < |items| ==> items[j].name != name
  {
    if items == [] then None
    else if items[0].name == name then Some(0)
    else match FirstIndex(items[1..], name)
      case None => None
      case Some(k) => Some(k + 1)
  }

  /** The count of the first entry named `name`, or 0 if there is none. */
  function CountOf(items: seq<Item>, name: string): (c: int)
  {
    match FirstIndex(items, name)
    case None => 0
    case Some(k) => items[k].count
  }

  /** What becomes of an entry after `qty` is taken from it: it is dropped once its count is no longer positive. */
  function Reduced(it: Item, qty: int): (r: seq<Item>)
  {
    if it.count - qty <= 0 then [] else [it.(count := it.count - qty)]
  }

  /**
    Taking `qty` of `name`: the list afterwards, or None when no entry has the
    name or the first one holds fewer than `qty`.
  */
  function Withdrawn(items: seq<Item>, name: string, qty: int): (r: Option<seq<Item>>)
    ensures r.Some? <==> FirstIndex(items, name).Some? && items[FirstIndex(items, name).value].count >= qty
  {
    if items == [] then None
    else if items[0].name == name then
      if items[0].count < qty then None else Some(Reduced(items[0], qty) + items[1..])
    else match Withdrawn(items[1..], name, qty)
      case None => None
      case Some(rest) => Some([items[0]] + rest)
  }

  /**
    A successful withdrawal changes only the first entry with the name (it
    is reduced or dropped) and keeps every other entry in order.
  */
  lemma {:induction false} WithdrawnAtFirstMatch(items: seq<Item>, name: string, qty: int)
    ensures Withdrawn(items, name, qty).Some? ==>
      var k := FirstIndex(items, name).value;
      Withdrawn(items, name, qty).value == items[..k] + Reduced(items[k], qty) + items[k + 1..]
  {
    if items != [] && items[0].name != name {
      WithdrawnAtFirstMatch(items[1..], name, qty);
      match FirstIndex(items[1..], name)
      case None =>
      case Some(k) =>
        if Withdrawn(items[1..], name, qty).Some? {
          var rest := Withdrawn(items[1..], name, qty).value;
          assert [items[0]] + rest == [items[0]] + (items[1..][..k] + Reduced(items[k + 1], qty) + items[1..][k + 1..]);
          assert items[..k + 1] == [items[0]] + items[1..][..k];
          assert items[k + 2..] == items[1..][k + 1..];
        }
    }
  }

  lemma {:induction false} FirstIndexSplit(front: seq<Item>, back: seq<Item>, name: string)
    requires forall j :: 0 <= j < |front| ==> front[j].name != name
    ensures FirstIndex(front + back, name) ==
      match FirstIndex(back, name) case None => None case Some(k) => Some(k + |front|)
  {
    if front != [] {
      assert (front + back)[0] == front[0] && front[0].name != name;
      assert (front + back)[1..] == front[1..] + back;
      FirstIndexSplit(front[1..], back, name);
      match FirstIndex(back, name)
      case None =>
      case Some(k) => assert FirstIndex(front[1..] + back, name) == Some(k + |front| - 1);
    } else {
      assert front + back == back;
    }
  }

  /** Entries before the first match do not affect the count. */
  lemma CountOfSplit(front: seq<Item>, back: seq<Item>, name: string)
    requires forall j :: 0 <= j < |front| ==> front[j].name != name
    ensures CountOf(front + back, name) == CountOf(back, name)
  {
    FirstIndexSplit(front, back, name);
  }

  /** A withdrawal leaves the count of every other name as it was. */
  lemma {:induction false} WithdrawKeepsOthers(items: seq<Item>, name: string, qty: int, other: string)
    requires other != name && Withdrawn(items, name, qty).Some?
    ensures CountOf(Withdrawn(items, name, qty).value, other) == CountOf(items, other)
  {
    if items[0].name == name {
      var rest := items[1..];
      assert items == [items[0]] + rest;
      CountOfSplit([items[0]], rest, other);
      CountOfSplit(Reduced(items[0], qty), rest, other);
    } else {
      WithdrawKeepsOthers(items[1..], name, qty, other);
    }
  }

  /**
    After a withdrawal the count of the name is the reduced count, or, once
    that entry is gone, the count of the next entry with the same name.
  */
  lemma WithdrawnCount(items: seq<Item>, name: string, qty: int)
    requires Withdrawn(items, name, qty).Some?
    ensures var k := FirstIndex(items, name).value;
      CountOf(Withdrawn(items, name, qty).value, name) ==
        if items[k].count - qty > 0 then items[k].count - qty else CountOf(items[k + 1..], name)
  {
    WithdrawnAtFirstMatch(items, name, qty);
    var k := FirstIndex(items, name).value;
    var after := Withdrawn(items, name, qty).value;
    assert after == items[..k] + (Reduced(items[k], qty) + items[k + 1..]);
    CountOfSplit(items[..k], Reduced(items[k], qty) + items[k + 1..], name);
    if items[k].count - qty <= 0 {
      assert Reduced(items[k], qty) + items[k + 1..] == items[k + 1..];
    }
  }

  class Bag {
    var items: seq<Item>
    var monsters: seq<Monster>

    constructor (items: seq<Item>, monsters: seq<Monster>)
      ensures this.items == items && this.monsters == monsters
    {
      this.items := items;
      this.monsters := monsters;
    }

    /** `_bag_count`: the count of the first entry named `name`, or 0. */
    method Count(name: string) returns (c: int)
      ensures c == CountOf(items, name)
      ensures FirstIndex(items, name).None? ==> c == 0
      ensures FirstIndex(items, name).Some? ==> c == items[FirstIndex(items, name).value].count
    {
      var i := 0;
      while i < |items|
        invariant 0 <= i <= |items|
        invariant forall j :: 0 <= j < i ==> items[j].name != name
      {
        if items[i].name == name {
          return items[i].count;
        }
        i := i + 1;
      }
      return 0;
    }

    /**
      `_bag_remove`: takes `qty` from the first entry named `name` and drops
      the entry when its count is no longer positive. Fails, changing nothing,
      when there is no such entry or it holds fewer than `qty`.
    */
    method Remove(name: string, qty: int) returns (ok: bool)
      modifies this
      ensures ok == Withdrawn(old(items), name, qty).Some?
      ensures items == if ok then Withdrawn(old(items), name, qty).value else old(items)
      ensures monsters == old(monsters)
    {
      WithdrawnAtFirstMatch(items, name, qty);
      var i := 0;
      while i < |items|
        invariant 0 <= i <= |items|
        invariant forall j :: 0 <= j < i ==> items[j].name != name
        invariant items == old(items) && monsters == old(monsters)
      {
        if items[i].name == name {
          var cur := items[i].count;
          if cur < qty {
            return false;
          }
          var it := items[i].(count := cur - qty);
          if it.count <= 0 {
            items := items[..i] + items[i + 1..];
          } else {
            items := items[..i] + [it] + items[i + 1..];
          }
          return true;
        }
        i := i + 1;
      }
      return false;
    }
  }
}
