/** js/modules/batchoperationmanager.js: the checkout cart of a batch operation. A single
    session object is active or not, has a mode, and keeps one entry per item id in a Map,
    whose iteration order is insertion order. */
module Session {
  import opened Common
  import opened Items

  /** One line of the cart; maxStock is the item's currentStock when it was first added. */
  datatype CartEntry = CartEntry(id: string, name: string, quantity: int, maxStock: int)

  /** The session's state: the Map is the entries by id plus the order the ids went in. */
  datatype Cart = Cart(isActive: bool, mode: Option<string>, entries: map<string, CartEntry>, order: seq<string>)

  /** What getSession hands out. */
  datatype View = View(isActive: bool, mode: Option<string>, items: seq<CartEntry>)

  predicate Distinct(s: seq<string>)
  {
    forall i, j :: 0 <= i < j < |s| ==> s[i] != s[j]
  }

  /** The order lists each key of the map exactly once, and each entry is filed under its id. */
  ghost predicate WellFormed(c: Cart)
  {
    Distinct(c.order) &&
    (forall k :: k in c.entries <==> k in c.order) &&
    (forall k :: k in c.entries ==> c.entries[k].id == k)
  }

  /** No session: inactive, no mode, no entries. */
  const Idle := Cart(false, None, map[], [])

  /** startSession: refused (no change) while a session is active; otherwise an empty active
      session in mode m. */
  function Start(c: Cart, m: string): (r: Cart)
    ensures r.isActive && (c.isActive ==> r == c)
    ensures !c.isActive ==> r.mode == Some(m) && r.entries == map[] && r.order == []
  {
    if c.isActive then c else Cart(true, Some(m), map[], [])
  }

  /** The quantity addItemToSession uses: the one given, 1 when the argument is omitted. */
  function QuantityArg(quantity: Option<int>): (q: int)
    ensures q == (if quantity.Some? then quantity.value else 1)
  {
    match quantity
    case Some(n) => n
    case None => 1
  }

  /** addItemToSession: nothing while inactive or when the id is not an item; an id already
      in the cart has its quantity raised, a new id is appended with the item's name and
      current stock. */
  function Added(c: Cart, items: seq<Item>, id: string, quantity: int): (r: Cart)
    requires WellFormed(c)
    ensures WellFormed(r) && r.isActive == c.isActive && r.mode == c.mode
    ensures !c.isActive || ItemIndex(items, id).None? ==> r == c
    ensures c.isActive && ItemIndex(items, id).Some? ==>
      id in r.entries && r.entries - {id} == c.entries - {id} &&
      r.entries[id].quantity == (if id in c.entries then c.entries[id].quantity else 0) + quantity &&
      (id in c.entries ==> r.order == c.order && r.entries[id] == c.entries[id].(quantity := r.entries[id].quantity)) &&
      (id !in c.entries ==>
         (var it := items[ItemIndex(items, id).value];
          r.order == c.order + [id] && r.entries[id] == CartEntry(id, it.name, quantity, it.currentStock)))
  {
    if !c.isActive then c
    else match ItemIndex(items, id)
      case None => c
      case Some(p) =>
        if id in c.entries then
          c.(entries := c.entries[id := c.entries[id].(quantity := c.entries[id].quantity + quantity)])
        else
          c.(entries := c.entries[id := CartEntry(id, items[p].name, quantity, items[p].currentStock)], order := c.order + [id])
  }

  /** Removing position k of a list without repetitions removes exactly that element. */
  lemma RemoveAtMembers(order: seq<string>, k: nat)
    requires Distinct(order) && k < |order|
    ensures Distinct(RemoveAt(order, k))
    ensures forall x :: x in RemoveAt(order, k) <==> x in order && x != order[k]
  {
    var r := RemoveAt(order, k);
    forall x | x in order && x != order[k] ensures x in r {
      var j :| 0 <= j < |order| && order[j] == x;
      if j < k {
        assert r[j] == x;
      } else {
        assert r[j - 1] == x;
      }
    }
  }

  /** The order without id. */
  function Erase(order: seq<string>, id: string): (r: seq<string>)
    requires Distinct(order)
    ensures Distinct(r)
    ensures forall x :: x in r <==> x in order && x != id
  {
    match FirstIndex(order, (x: string) => x == id)
    case None => order
    case Some(k) => RemoveAtMembers(order, k); RemoveAt(order, k)
  }

  /** removeItemFromSession: the entry for id, if any, leaves the cart; the rest keep their order. */
  function Removed(c: Cart, id: string): (r: Cart)
    requires WellFormed(c)
    ensures WellFormed(r) && r.isActive == c.isActive && r.mode == c.mode
    ensures id !in r.entries && r.entries == c.entries - {id}
    ensures id !in c.entries ==> r == c
  {
    if id in c.entries then c.(entries := c.entries - {id}, order := Erase(c.order, id)) else c
  }

  /** updateItemQuantityInSession: a present id gets the new quantity when it is positive and
      leaves the cart otherwise; an absent id changes nothing. */
  function Requantified(c: Cart, id: string, quantity: int): (r: Cart)
    requires WellFormed(c)
    ensures WellFormed(r) && r.isActive == c.isActive && r.mode == c.mode
    ensures id !in c.entries ==> r == c
    ensures id in c.entries && quantity > 0 ==>
      r.order == c.order && r.entries == c.entries[id := c.entries[id].(quantity := quantity)]
    ensures id in c.entries && quantity <= 0 ==> r == Removed(c, id)
  {
    if id !in c.entries then c
    else if quantity > 0 then c.(entries := c.entries[id := c.entries[id].(quantity := quantity)])
    else Removed(c, id)
  }

  /** getSession's items: the entries in insertion order, one per id. */
  function Contents(c: Cart): (r: seq<CartEntry>)
    requires WellFormed(c)
    ensures |r| == |c.order|
    ensures forall i :: 0 <= i < |r| ==> r[i].id == c.order[i] && r[i] == c.entries[c.order[i]]
    ensures forall i, j :: 0 <= i < j < |r| ==> r[i].id != r[j].id
  {
    seq(|c.order|, i requires 0 <= i < |c.order| => c.entries[c.order[i]])
  }

  // ---- properties ----

  /** Adding a new item and removing it again restores the cart. */
  lemma {:induction false} AddThenRemove(c: Cart, items: seq<Item>, id: string, quantity: int)
    requires WellFormed(c) && id !in c.entries
    ensures Removed(Added(c, items, id, quantity), id) == c
  {
    var a := Added(c, items, id, quantity);
    if c.isActive && ItemIndex(items, id).Some? {
      assert a.order == c.order + [id];
      EraseAppended(c.order, id);
      assert a.entries - {id} == c.entries;
    }
  }

  /** Erasing an id just appended to the order gives the order back. */
  lemma EraseAppended(order: seq<string>, id: string)
    requires Distinct(order + [id])
    ensures Erase(order + [id], id) == order
  {
    var o := order + [id];
    var k := |order|;
    assert FirstIndex(o, (x: string) => x == id) == Some(k) by {
      forall j | 0 <= j < k ensures o[j] != id {
        assert o[j] == order[j];
        assert o[k] == id;
      }
    }
    assert RemoveAt(o, k) == order;
  }

  /** Two additions of the same item are one addition of the summed quantity. */
  lemma AddAccumulates(c: Cart, items: seq<Item>, id: string, a: int, b: int)
    requires WellFormed(c)
    ensures Added(Added(c, items, id, a), items, id, b) == Added(c, items, id, a + b)
  {
    if c.isActive && ItemIndex(items, id).Some? {
      var r1 := Added(c, items, id, a);
      var r2 := Added(r1, items, id, b);
      var r := Added(c, items, id, a + b);
      assert r2.entries == r.entries by {
        assert r2.entries - {id} == r.entries - {id};
        assert r2.entries[id] == r.entries[id];
      }
    }
  }

  /** A new item is listed last by getSession, the others as before. */
  lemma ContentsAfterAdd(c: Cart, items: seq<Item>, id: string, quantity: int)
    requires WellFormed(c) && c.isActive && ItemIndex(items, id).Some? && id !in c.entries
    ensures var it := items[ItemIndex(items, id).value];
      Contents(Added(c, items, id, quantity)) == Contents(c) + [CartEntry(id, it.name, quantity, it.currentStock)]
  {
    var a := Added(c, items, id, quantity);
    var l := Contents(a);
    var it := items[ItemIndex(items, id).value];
    var e := Contents(c) + [CartEntry(id, it.name, quantity, it.currentStock)];
    forall i | 0 <= i < |l| ensures l[i] == e[i] {
      if i < |c.order| {
        assert c.order[i] != id;
        assert a.entries[c.order[i]] == c.entries[c.order[i]];
      }
    }
  }

  /** The session object. */
  class BatchSession {
    var isActive: bool
    var mode: Option<string>
    var entries: map<string, CartEntry>
    var order: seq<string>

    function Snapshot(): Cart
      reads this
    {
      Cart(isActive, mode, entries, order)
    }

    ghost predicate Valid()
      reads this
    {
      WellFormed(Snapshot())
    }

    constructor()
      ensures Valid() && Snapshot() == Idle
    {
      isActive, mode, entries, order := false, None, map[], [];
    }

    method StartSession(m: string) returns (ok: bool)
      requires Valid()
      modifies this
      ensures Valid() && Snapshot() == Start(old(Snapshot()), m)
      ensures ok == !old(isActive)
    {
      if isActive {
        return false;
      }
      isActive := true;
      mode := Some(m);
      entries, order := map[], [];
      ok := true;
    }

    /** endSession: always back to no session. */
    method EndSession()
      modifies this
      ensures Valid() && Snapshot() == Idle
    {
      isActive := false;
      mode := None;
      entries, order := map[], [];
    }

    method AddItemToSession(items: seq<Item>, id: string, given: Option<int>)
      requires Valid()
      modifies this
      ensures Valid() && Snapshot() == Added(old(Snapshot()), items, id, QuantityArg(given))
    {
      var quantity := QuantityArg(given);
      if !isActive {
        return;
      }
      var p := ItemIndex(items, id);
      if p.None? {
        return;
      }
      if id in entries {
        var existing := entries[id];
        entries := entries[id := existing.(quantity := existing.quantity + quantity)];
      } else {
        var it := items[p.value];
        entries := entries[id := CartEntry(id, it.name, quantity, it.currentStock)];
        order := order + [id];
      }
    }

    method RemoveItemFromSession(id: string)
      requires Valid()
      modifies this
      ensures Valid() && Snapshot() == Removed(old(Snapshot()), id)
    {
      if id in entries {
        entries := entries - {id};
        order := Erase(order, id);
      }
    }

    method UpdateItemQuantityInSession(id: string, quantity: int)
      requires Valid()
      modifies this
      ensures Valid() && Snapshot() == Requantified(old(Snapshot()), id, quantity)
    {
      if id in entries {
        if quantity > 0 {
          entries := entries[id := entries[id].(quantity := quantity)];
        } else {
          RemoveItemFromSession(id);
        }
      }
    }

    /** getSession: the flags and the entries in insertion order. */
    function GetSession(): (v: View)
      requires Valid()
      reads this
      ensures v.isActive == isActive && v.mode == mode && v.items == Contents(Snapshot())
    {
      View(isActive, mode, Contents(Snapshot()))
    }
  }
}
