/** js/modules/remapping.js: reallocateUnshelvedItems gives a new slot to every item without a
    usable location and to every item but the first at a location several items share. */
module Remapping {
  import opened Common
  import opened Config
  import opened Items
  import opened Store
  import opened Mapping

  /** No location, no aisle, or the placeholder aisle "N/A". */
  predicate Unshelved(it: Item)
  {
    it.location.None? || it.location.value.aisle == "" || it.location.value.aisle == "N/A"
  }

  /** A fully filled location whose key an earlier fully located item already has. */
  predicate DuplicateAt(items: seq<Item>, i: nat)
    requires i < |items|
  {
    Shelved(items[i]) &&
    exists j :: 0 <= j < i && Shelved(items[j]) && LocationKey(items[j].location.value) == LocationKey(items[i].location.value)
  }

  /** itemsToRelocate: the ids of the unshelved items and of the later items at a shared key. */
  function MarkedIds(items: seq<Item>): (m: set<string>)
    ensures forall i :: 0 <= i < |items| && (Unshelved(items[i]) || DuplicateAt(items, i)) ==> items[i].id in m
    ensures forall id :: id in m ==> exists i :: 0 <= i < |items| && items[i].id == id && (Unshelved(items[i]) || DuplicateAt(items, i))
  {
    set i | 0 <= i < |items| && (Unshelved(items[i]) || DuplicateAt(items, i)) :: items[i].id
  }

  /** The keys of the items that stay where they are (those with an aisle). */
  function KeptKeys(items: seq<Item>, marked: set<string>): (occ: set<string>)
    ensures forall i :: 0 <= i < |items| && items[i].id !in marked && items[i].location.Some? && items[i].location.value.aisle != "" ==>
              LocationKey(items[i].location.value) in occ
  {
    set i | 0 <= i < |items| && items[i].id !in marked && items[i].location.Some? && items[i].location.value.aisle != "" ::
      LocationKey(items[i].location.value)
  }

  /** The relocation loop so far: the items, the keys in use, the positions given a new slot. */
  datatype Pass = Pass(items: seq<Item>, occ: set<string>, moved: set<nat>, count: nat)

  /** One item of the loop: a marked item asks suggestLocation (with the stored items, its
      type and the keys in use) for a slot, and takes it when there is one. */
  function RelocateStep(stored: seq<Item>, g: Layout, marked: set<string>, p: Pass, k: nat): (q: Pass)
    requires k < |p.items|
    ensures |q.items| == |p.items|
  {
    var it := p.items[k];
    if it.id !in marked then p
    else match SuggestLocation(stored, g, it.itemType, Some(p.occ))
      case None => p
      case Some(loc) => MoveTo(p, k, loc)
  }

  function RelocateFrom(stored: seq<Item>, g: Layout, marked: set<string>, p: Pass, k: nat): (q: Pass)
    requires k <= |p.items|
    ensures |q.items| == |p.items|
    decreases |p.items| - k
  {
    if k == |p.items| then p else RelocateFrom(stored, g, marked, RelocateStep(stored, g, marked, p, k), k + 1)
  }

  /** reallocateUnshelvedItems on the stored items: the items afterwards and the count. */
  function Reallocation(items: seq<Item>, g: Layout): (r: Pass)
    ensures |r.items| == |items|
  {
    var marked := MarkedIds(items);
    if marked == {} then Pass(items, KeptKeys(items, marked), {}, 0)
    else RelocateFrom(items, g, marked, Pass(items, KeptKeys(items, marked), {}, 0), 0)
  }

  /** What the loop keeps, with positions before k visited: only marked items visited so far
      have moved, each to a key in use that no kept item has and no other moved item has; the
      rest are as stored; the count is the number moved. */
  predicate Kept(stored: seq<Item>, marked: set<string>, p: Pass, k: nat)
  {
    |p.items| == |stored| && KeptKeys(stored, marked) <= p.occ && p.count == |p.moved| &&
    Unmoved(stored, p) && MovedWell(stored, marked, p, k) && MovedApart(p)
  }

  predicate Unmoved(stored: seq<Item>, p: Pass)
  {
    |p.items| == |stored| && forall i :: 0 <= i < |stored| && i !in p.moved ==> p.items[i] == stored[i]
  }

  predicate MovedWell(stored: seq<Item>, marked: set<string>, p: Pass, k: nat)
  {
    forall i :: i in p.moved ==> (i < k && i < |stored| && i < |p.items| && stored[i].id in marked &&
      p.items[i].location.Some? && p.items[i] == stored[i].(location := p.items[i].location) &&
      LocationKey(p.items[i].location.value) in p.occ &&
      LocationKey(p.items[i].location.value) !in KeptKeys(stored, marked))
  }

  predicate MovedApart(p: Pass)
  {
    forall i, j :: i in p.moved && j in p.moved && i != j && i < |p.items| && j < |p.items| ==>
      p.items[i].location.Some? && p.items[j].location.Some? &&
      LocationKey(p.items[i].location.value) != LocationKey(p.items[j].location.value)
  }

  /** The pass after moving item k to loc. */
  function MoveTo(p: Pass, k: nat, loc: Location): (q: Pass)
    requires k < |p.items|
    ensures |q.items| == |p.items| && q.items[k] == p.items[k].(location := Some(loc))
    ensures forall i :: 0 <= i < |p.items| && i != k ==> q.items[i] == p.items[i]
  {
    Pass(p.items[k := p.items[k].(location := Some(loc))], p.occ + {LocationKey(loc)}, p.moved + {k}, p.count + 1)
  }

  lemma MoveKeepsUnmoved(stored: seq<Item>, p: Pass, k: nat, loc: Location)
    requires k < |p.items| && Unmoved(stored, p)
    ensures Unmoved(stored, MoveTo(p, k, loc))
  {
  }

  lemma MoveKeepsMovedWell(stored: seq<Item>, marked: set<string>, p: Pass, k: nat, loc: Location)
    requires k < |p.items| == |stored| && Unmoved(stored, p) && MovedWell(stored, marked, p, k)
    requires stored[k].id in marked && KeptKeys(stored, marked) <= p.occ && LocationKey(loc) !in p.occ
    ensures MovedWell(stored, marked, MoveTo(p, k, loc), k + 1)
  {
    var q := MoveTo(p, k, loc);
    forall i | i in q.moved
      ensures i < k + 1 && i < |stored| && i < |q.items| && stored[i].id in marked &&
        q.items[i].location.Some? && q.items[i] == stored[i].(location := q.items[i].location) &&
        LocationKey(q.items[i].location.value) in q.occ &&
        LocationKey(q.items[i].location.value) !in KeptKeys(stored, marked)
    {
      if i != k {
        assert q.items[i] == p.items[i];
      } else {
        assert p.items[k] == stored[k] by {
          assert k !in p.moved;
        }
      }
    }
  }

  lemma MoveKeepsApart(stored: seq<Item>, marked: set<string>, p: Pass, k: nat, loc: Location)
    requires k < |p.items| && MovedWell(stored, marked, p, k) && MovedApart(p) && LocationKey(loc) !in p.occ
    ensures MovedApart(MoveTo(p, k, loc))
  {
    var q := MoveTo(p, k, loc);
    forall i, j | i in q.moved && j in q.moved && i != j && i < |q.items| && j < |q.items|
      ensures q.items[i].location.Some? && q.items[j].location.Some? &&
              LocationKey(q.items[i].location.value) != LocationKey(q.items[j].location.value)
    {
      if i != k && j != k {
        assert q.items[i] == p.items[i] && q.items[j] == p.items[j];
      } else if i == k {
        assert q.items[j] == p.items[j];
      } else {
        assert q.items[i] == p.items[i];
      }
    }
  }

  lemma RelocateStepKeeps(stored: seq<Item>, g: Layout, marked: set<string>, p: Pass, k: nat)
    requires k < |p.items| && Kept(stored, marked, p, k)
    ensures Kept(stored, marked, RelocateStep(stored, g, marked, p, k), k + 1)
  {
    var it := p.items[k];
    if it.id in marked {
      var s := SuggestLocation(stored, g, it.itemType, Some(p.occ));
      if s.Some? {
        var loc := s.value;
        assert RelocateStep(stored, g, marked, p, k) == MoveTo(p, k, loc);
        assert k !in p.moved;
        assert it == stored[k];
        MoveKeepsUnmoved(stored, p, k, loc);
        MoveKeepsMovedWell(stored, marked, p, k, loc);
        MoveKeepsApart(stored, marked, p, k, loc);
      }
    }
  }

  lemma {:induction false} RelocateFromKeeps(stored: seq<Item>, g: Layout, marked: set<string>, p: Pass, k: nat)
    requires k <= |p.items| && Kept(stored, marked, p, k)
    ensures Kept(stored, marked, RelocateFrom(stored, g, marked, p, k), |p.items|)
    decreases |p.items| - k
  {
    if k < |p.items| {
      RelocateStepKeeps(stored, g, marked, p, k);
      RelocateFromKeeps(stored, g, marked, RelocateStep(stored, g, marked, p, k), k + 1);
    }
  }

  /** Every marked item visited so far that did not move found no free slot, and finds none
      with the keys now in use. */
  predicate Stuck(stored: seq<Item>, g: Layout, marked: set<string>, p: Pass, k: nat)
  {
    forall i :: 0 <= i < k && i < |stored| && stored[i].id in marked && i !in p.moved ==>
      SuggestLocation(stored, g, stored[i].itemType, Some(p.occ)).None?
  }

  lemma RelocateStepStuck(stored: seq<Item>, g: Layout, marked: set<string>, p: Pass, k: nat)
    requires k < |p.items| && Kept(stored, marked, p, k) && Stuck(stored, g, marked, p, k)
    ensures Stuck(stored, g, marked, RelocateStep(stored, g, marked, p, k), k + 1)
  {
    var q := RelocateStep(stored, g, marked, p, k);
    assert p.occ <= q.occ && p.moved <= q.moved;
    assert k !in p.moved;
    forall i | 0 <= i < k + 1 && i < |stored| && stored[i].id in marked && i !in q.moved
      ensures SuggestLocation(stored, g, stored[i].itemType, Some(q.occ)).None?
    {
      if i < k {
        SuggestionNoneGrows(stored, g, stored[i].itemType, p.occ, q.occ);
      } else {
        assert p.items[k] == stored[k];
      }
    }
  }

  lemma {:induction false} RelocateFromStuck(stored: seq<Item>, g: Layout, marked: set<string>, p: Pass, k: nat)
    requires k <= |p.items| && Kept(stored, marked, p, k) && Stuck(stored, g, marked, p, k)
    ensures Stuck(stored, g, marked, RelocateFrom(stored, g, marked, p, k), |p.items|)
    decreases |p.items| - k
  {
    if k < |p.items| {
      var q := RelocateStep(stored, g, marked, p, k);
      RelocateStepKeeps(stored, g, marked, p, k);
      RelocateStepStuck(stored, g, marked, p, k);
      RelocateFromStuck(stored, g, marked, q, k + 1);
    } else {
      assert RelocateFrom(stored, g, marked, p, k) == p;
    }
  }

  /** With nothing marked nothing changes; otherwise only marked items move, each to its own
      slot that no kept item uses; a marked item that kept its place had no free slot, and
      has none at the end either; the count is the number of items moved. */
  lemma ReallocationSummary(items: seq<Item>, g: Layout)
    ensures MarkedIds(items) == {} ==> Reallocation(items, g).items == items && Reallocation(items, g).count == 0
    ensures Kept(items, MarkedIds(items), Reallocation(items, g), |items|)
    ensures Stuck(items, g, MarkedIds(items), Reallocation(items, g), |items|)
  {
    var marked := MarkedIds(items);
    if marked != {} {
      RelocateFromKeeps(items, g, marked, Pass(items, KeptKeys(items, marked), {}, 0), 0);
      RelocateFromStuck(items, g, marked, Pass(items, KeptKeys(items, marked), {}, 0), 0);
    }
  }

  /** Moving items keeps every kit ready: only locations change. */
  lemma ReallocationKeepsKitsReady(items: seq<Item>, g: Layout)
    requires AllKitsReady(items)
    ensures AllKitsReady(Reallocation(items, g).items)
  {
    ReallocationSummary(items, g);
    var r := Reallocation(items, g);
    forall i | 0 <= i < |r.items| ensures KitReady(r.items[i]) {
      assert KitReady(items[i]);
    }
  }

  /** The relocation pass over the item list, in place. */
  method RelocateOn(stored: seq<Item>, g: Layout, marked: set<string>, occupied: set<string>) returns (items: seq<Item>, count: nat)
    ensures var r := RelocateFrom(stored, g, marked, Pass(stored, occupied, {}, 0), 0);
      items == r.items && count == r.count
  {
    items := stored;
    count := 0;
    var occ := occupied;
    ghost var moved: set<nat> := {};
    var k := 0;
    while k < |items|
      invariant 0 <= k <= |items| == |stored|
      invariant RelocateFrom(stored, g, marked, Pass(items, occ, moved, count), k) ==
                RelocateFrom(stored, g, marked, Pass(stored, occupied, {}, 0), 0)
    {
      ghost var before := Pass(items, occ, moved, count);
      var it := items[k];
      if it.id in marked {
        var loc := SuggestLocation(stored, g, it.itemType, Some(occ));
        if loc.Some? {
          items := items[k := it.(location := loc)];
          count := count + 1;
          occ := occ + {LocationKey(loc.value)};
          moved := moved + {k};
        }
      }
      assert Pass(items, occ, moved, count) == RelocateStep(stored, g, marked, before, k);
      k := k + 1;
    }
  }

  /** reallocateUnshelvedItems with the layout read from the settings. */
  method ReallocateUnshelvedItemsIn(w: Warehouse, g: Layout) returns (count: nat)
    requires w.Valid()
    modifies w`items
    ensures w.Valid()
    ensures var r := Reallocation(old(w.items), g); count == r.count && w.items == r.items
  {
    ReallocationKeepsKitsReady(w.items, g);
    var marked := MarkedIds(w.items);
    if marked == {} {
      return 0;
    }
    var items;
    items, count := RelocateOn(w.items, g, marked, KeptKeys(w.items, marked));
    if count > 0 {
      w.items := items;
    }
    ReallocationSummary(old(w.items), g);
  }

  method ReallocateUnshelvedItems(w: Warehouse) returns (count: nat)
    requires w.Valid()
    modifies w`items
    ensures w.Valid()
    ensures var r := Reallocation(old(w.items), LayoutOf(w.Settings())); count == r.count && w.items == r.items
  {
    count := ReallocateUnshelvedItemsIn(w, LayoutOf(w.Settings()));
  }
}
