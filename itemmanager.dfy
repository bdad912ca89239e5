/** js/modules/itemmanager.js, the operations that change the item list: adding and deleting
    batches, composing kits, and creating, editing, deleting and bulk-adding items. Each is a
    function of the list before it (None when the source returns false or null), with a
    Warehouse method that applies it, and lemmas for what it promises. */
module ItemManager {
  import opened Common
  import opened Config
  import opened Batches
  import opened Items
  import opened Store
  import opened StockControl

  // ---- addBatchToItem ----

  const BatchResponsible: string := "Sistema (Lote)"

  /** The checks of addBatchToItem on its arguments, `today` being the current day: a
      positive quantity; an acquisition date that is given and is not after today; a
      manufacturing date, when given, neither after today nor after the acquisition date.
      A date that does not parse compares false with everything and so passes. */
  predicate BatchAllowed(q: int, acquisition: DateValue, manufacturing: DateValue, today: int)
  {
    q > 0 && acquisition != Absent &&
    !(acquisition.Day? && acquisition.n > today) &&
    !(manufacturing.Day? && manufacturing.n > today) &&
    !(manufacturing.Day? && acquisition.Day? && manufacturing.n > acquisition.n)
  }

  /** parseInt(override) || item.shelfLifeDays || 0, with 0 standing for a missing value. */
  function ShelfLifeFor(override: int, it: Item): int
  {
    if override != 0 then override else it.shelfLifeDays
  }

  function LotBatch(id: string, q: int, acquisition: DateValue, manufacturing: DateValue, shelfLife: int): Batch
  {
    Batch(id, q, acquisition, manufacturing, shelfLife, false)
  }

  /** The batch pushed, an entry record at the head of the history, the item and then the kits
      that use it recalculated. */
  function BatchAddedAt(items: seq<Item>, p: nat, b: Batch, now: int): (r: seq<Item>)
    requires p < |items| && AllKitsReady(items)
    ensures AllKitsReady(r) && SameCatalog(items, r) && SameLoans(items, r)
  {
    RefreshAt(UnshiftAt(PushBatchAt(items, p, b), p, HistoryRecord(Entry, b.quantity, now, BatchResponsible)), p)
  }

  /** addBatchToItem: refused without change for an unknown item or when a check fails;
      otherwise one batch with a fresh id is added. */
  function AddBatchOutcome(l: Ledger, itemId: string, q: int, acquisition: DateValue, manufacturing: DateValue,
                           override: int, now: int): (r: Outcome)
    requires AllKitsReady(l.items)
    ensures AllKitsReady(r.ledger.items) && SameCatalog(l.items, r.ledger.items) && SameLoans(l.items, r.ledger.items)
    ensures r.ledger.debits == l.debits && r.ledger.orders == l.orders
    ensures r.ok <==> ItemIndex(l.items, itemId).Some? && BatchAllowed(q, acquisition, manufacturing, DayOf(now))
    ensures r.ok ==> r.ledger.next == l.next + 1
    ensures !r.ok ==> r.ledger == l
  {
    match ItemIndex(l.items, itemId)
    case None => Outcome(false, l)
    case Some(p) =>
      if !BatchAllowed(q, acquisition, manufacturing, DayOf(now)) then Outcome(false, l)
      else
        var b := LotBatch(MintId(l.next), q, acquisition, manufacturing, ShelfLifeFor(override, l.items[p]));
        Outcome(true, l.(items := BatchAddedAt(l.items, p, b, now), next := l.next + 1))
  }

  method AddBatchToItem(w: Warehouse, itemId: string, q: int, acquisition: DateValue, manufacturing: DateValue,
                        override: int, now: int) returns (ok: bool)
    requires w.Valid()
    modifies w`items, w`nextId
    ensures w.Valid()
    ensures var r := AddBatchOutcome(old(w.LedgerOf()), itemId, q, acquisition, manufacturing, override, now);
            ok == r.ok && w.LedgerOf() == r.ledger
  {
    var found := ItemIndex(w.items, itemId);
    if found.None? || !BatchAllowed(q, acquisition, manufacturing, DayOf(now)) {
      return false;
    }
    var p := found.value;
    var shelfLife := ShelfLifeFor(override, w.items[p]);
    var id := w.FreshId();
    w.items := BatchAddedAt(w.items, p, LotBatch(id, q, acquisition, manufacturing, shelfLife), now);
    ok := true;
  }

  /** A batch added to a simple item: it is appended with the override, or else the item's,
      shelf life; the total rises by exactly the quantity and the figures follow it; an entry
      record heads the history; only the kits that use the item may change besides it. */
  lemma AddBatchSimple(l: Ledger, itemId: string, q: int, acquisition: DateValue, manufacturing: DateValue,
                       override: int, now: int, p: nat)
    requires AllKitsReady(l.items) && ItemIndex(l.items, itemId) == Some(p) && !IsKit(l.items[p])
    requires BatchAllowed(q, acquisition, manufacturing, DayOf(now))
    ensures var r := AddBatchOutcome(l, itemId, q, acquisition, manufacturing, override, now).ledger.items;
      var it := l.items[p];
      var b := r[p].batches[|it.batches|];
      r[p].batches == it.batches + [b] &&
      b == Batch(MintId(l.next), q, acquisition, manufacturing, if override != 0 then override else it.shelfLifeDays, false) &&
      r[p].totalStock == Total(it.batches) + q &&
      (it.totalStock == Total(it.batches) ==> r[p].totalStock == it.totalStock + q) &&
      r[p].currentStock == Max0(r[p].totalStock - it.onLoanCount) &&
      r[p].history == [HistoryRecord(Entry, q, now, BatchResponsible)] + it.history &&
      forall k :: 0 <= k < |l.items| && k != p && !References(l.items[k], itemId) ==> r[k] == l.items[k]
  {
    var it := l.items[p];
    TotalAppend(it.batches, [LotBatch(MintId(l.next), q, acquisition, manufacturing, ShelfLifeFor(override, it))]);
  }

  // ---- deleteBatchFromItem ----

  const BatchDeletionResponsible: string := "Usuário (Exclusão de Lote)"

  function WithoutBatchAt(items: seq<Item>, p: nat, k: nat): (r: seq<Item>)
    requires p < |items| && k < |items[p].batches|
    ensures SameCatalog(items, r) && SameLoans(items, r) && (AllKitsReady(items) ==> AllKitsReady(r))
    ensures forall j :: 0 <= j < |items| && j != p ==> r[j] == items[j]
    ensures r[p].batches == RemoveAt(items[p].batches, k) && r[p].history == items[p].history
  {
    items[p := items[p].(batches := RemoveAt(items[p].batches, k))]
  }

  /** The batch spliced out, an adjustment record of minus its quantity at the head of the
      history, the item and then its kits recalculated. */
  function BatchDeletedAt(items: seq<Item>, p: nat, k: nat, now: int): (r: seq<Item>)
    requires p < |items| && k < |items[p].batches| && AllKitsReady(items)
    ensures AllKitsReady(r) && SameCatalog(items, r) && SameLoans(items, r)
  {
    var rec := HistoryRecord(Adjustment, -items[p].batches[k].quantity, now, BatchDeletionResponsible);
    RefreshAt(UnshiftAt(WithoutBatchAt(items, p, k), p, rec), p)
  }

  /** deleteBatchFromItem: None (false) for an unknown item or an unknown batch id; any
      existing batch may be deleted. */
  function DeleteBatchOutcome(items: seq<Item>, itemId: string, batchId: string, now: int): (r: Option<seq<Item>>)
    requires AllKitsReady(items)
    ensures r.Some? <==> ItemIndex(items, itemId).Some? &&
                         BatchIndex(items[ItemIndex(items, itemId).value].batches, batchId).Some?
    ensures r.Some? ==> AllKitsReady(r.value) && SameCatalog(items, r.value) && SameLoans(items, r.value)
  {
    match ItemIndex(items, itemId)
    case None => None
    case Some(p) =>
      match BatchIndex(items[p].batches, batchId)
      case None => None
      case Some(k) => Some(BatchDeletedAt(items, p, k, now))
  }

  method DeleteBatchFromItem(w: Warehouse, itemId: string, batchId: string, now: int) returns (ok: bool)
    requires w.Valid()
    modifies w`items
    ensures w.Valid()
    ensures var r := DeleteBatchOutcome(old(w.items), itemId, batchId, now);
            ok == r.Some? && w.items == if ok then r.value else old(w.items)
  {
    var found := ItemIndex(w.items, itemId);
    if found.None? {
      return false;
    }
    var p := found.value;
    var k := BatchIndex(w.items[p].batches, batchId);
    if k.None? {
      return false;
    }
    w.items := BatchDeletedAt(w.items, p, k.value, now);
    ok := true;
  }

  /** Deleting a batch of a simple item takes out exactly that batch (the first with the id),
      the total drops by its quantity and the figures follow; an adjustment of minus that
      quantity heads the history; only the kits that use the item may change besides it. */
  lemma DeleteBatchSimple(items: seq<Item>, itemId: string, batchId: string, now: int, p: nat, k: nat)
    requires AllKitsReady(items) && ItemIndex(items, itemId) == Some(p) && !IsKit(items[p])
    requires BatchIndex(items[p].batches, batchId) == Some(k)
    ensures var r := DeleteBatchOutcome(items, itemId, batchId, now).value;
      var it := items[p];
      var q := it.batches[k].quantity;
      r[p].batches == RemoveAt(it.batches, k) &&
      multiset(r[p].batches) == multiset(it.batches) - multiset{it.batches[k]} &&
      r[p].totalStock == Total(it.batches) - q &&
      (it.totalStock == Total(it.batches) ==> r[p].totalStock == it.totalStock - q) &&
      r[p].currentStock == Max0(r[p].totalStock - it.onLoanCount) &&
      r[p].history == [HistoryRecord(Adjustment, -q, now, BatchDeletionResponsible)] + it.history &&
      forall j :: 0 <= j < |items| && j != p && !References(items[j], itemId) ==> r[j] == items[j]
  {
    TotalRemove(items[p].batches, k);
    BatchDeletedSimple(items, p, k, now);
  }

  lemma BatchDeletedSimple(items: seq<Item>, p: nat, k: nat, now: int)
    requires p < |items| && k < |items[p].batches| && AllKitsReady(items) && !IsKit(items[p])
    ensures var r := BatchDeletedAt(items, p, k, now);
      var it := items[p];
      r[p].batches == RemoveAt(it.batches, k) &&
      r[p].totalStock == Total(RemoveAt(it.batches, k)) &&
      r[p].currentStock == Max0(r[p].totalStock - it.onLoanCount) &&
      r[p].history == [HistoryRecord(Adjustment, -it.batches[k].quantity, now, BatchDeletionResponsible)] + it.history &&
      forall j :: 0 <= j < |items| && j != p && !References(items[j], it.id) ==> r[j] == items[j]
  {
  }

  // ---- kit composition ----

  /** The item at p, given comps as its components, can still be recalculated. */
  predicate ComposableAt(items: seq<Item>, p: nat, comps: seq<KitComponent>)
    requires p < |items|
  {
    KitReady(items[p].(kitItems := comps))
  }

  /** kit.kitItems = comps followed by recalculateStockFromBatches(kit, items). */
  function ComposedAt(items: seq<Item>, p: nat, comps: seq<KitComponent>): (r: seq<Item>)
    requires p < |items| && AllKitsReady(items) && ComposableAt(items, p, comps)
    ensures AllKitsReady(r) && |r| == |items|
    ensures forall k :: 0 <= k < |items| && k != p ==> r[k] == items[k]
    ensures r[p] == Recalc(items[p].(kitItems := comps), items[p := items[p].(kitItems := comps)])
  {
    RecalcAt(items[p := items[p].(kitItems := comps)], p)
  }

  /** Every component that names an item names a simple one. */
  predicate SimpleComponents(items: seq<Item>, comps: seq<KitComponent>)
  {
    forall j :: 0 <= j < |comps| && ItemIndex(items, comps[j].id).Some? ==> !IsKit(items[ItemIndex(items, comps[j].id).value])
  }

  /** Two lists with the same ids and types everywhere. */
  predicate SameShape(a: seq<Item>, b: seq<Item>)
  {
    |a| == |b| && forall k :: 0 <= k < |a| ==> b[k].id == a[k].id && b[k].itemType == a[k].itemType
  }

  lemma ComposedShape(items: seq<Item>, p: nat, comps: seq<KitComponent>)
    requires p < |items| && AllKitsReady(items) && ComposableAt(items, p, comps)
    ensures SameShape(items, ComposedAt(items, p, comps))
    ensures forall id :: ItemIndex(ComposedAt(items, p, comps), id) == ItemIndex(items, id)
  {
    var r := ComposedAt(items, p, comps);
    var x := items[p].(kitItems := comps);
    assert r[p] == Recalc(x, items[p := x]);
    assert r[p].id == items[p].id && r[p].itemType == items[p].itemType;
    assert SameShape(items, r) by {
      forall k | 0 <= k < |items| ensures r[k].id == items[k].id && r[k].itemType == items[k].itemType {
        if k != p {
          assert r[k] == items[k];
        }
      }
    }
    forall id ensures ItemIndex(r, id) == ItemIndex(items, id) {
      SameIdsSameIndex(items, r, id);
    }
  }

  /** A new composition of simple components keeps every kit built from simple items only. */
  lemma ComposedKeepsSimple(items: seq<Item>, p: nat, comps: seq<KitComponent>)
    requires p < |items| && AllKitsReady(items) && ComposableAt(items, p, comps)
    requires ComponentsAreSimple(items) && SimpleComponents(items, comps)
    ensures ComponentsAreSimple(ComposedAt(items, p, comps))
  {
    var r := ComposedAt(items, p, comps);
    ComposedShape(items, p, comps);
    forall k, j | 0 <= k < |r| && IsKit(r[k]) && 0 <= j < |r[k].kitItems| && ItemIndex(r, r[k].kitItems[j].id).Some?
      ensures !IsKit(r[ItemIndex(r, r[k].kitItems[j].id).value])
    {
      var m := ItemIndex(items, r[k].kitItems[j].id).value;
      assert r[m].itemType == items[m].itemType;
      if k == p {
        assert r[k].kitItems[j] == comps[j];
      } else {
        assert r[k] == items[k];
      }
    }
  }

  /** After a new composition of simple components, the kit's stock is what a fresh
      recalculation against the saved list gives: nothing stale is left. */
  lemma ComposedIsCurrent(items: seq<Item>, p: nat, comps: seq<KitComponent>)
    requires p < |items| && AllKitsReady(items) && ComposableAt(items, p, comps)
    requires SimpleComponents(items, comps)
    ensures var r := ComposedAt(items, p, comps); Recalc(r[p], r) == r[p]
  {
    var a := items[p := items[p].(kitItems := comps)];
    var r := ComposedAt(items, p, comps);
    RecalcStable(a[p], a);
    if IsKit(a[p]) {
      assert SimpleAgree(a, r);
      forall j | 0 <= j < |r[p].kitItems| && ItemIndex(a, r[p].kitItems[j].id).Some?
        ensures !IsKit(a[ItemIndex(a, r[p].kitItems[j].id).value])
      {
        SameIdsSameIndex(items, a, comps[j].id);
        assert r[p].kitItems[j] == comps[j];
      }
      RecalcAgrees(r[p], a, r);
    }
  }

  predicate HasComponent(comps: seq<KitComponent>, id: string)
  {
    exists j :: 0 <= j < |comps| && comps[j].id == id
  }

  /** The checks of addItemToKit: the kit and the component exist, the component is not a
      kit, and the kit does not list it yet. The kit's own type is not checked. */
  predicate KitAdditionAllowed(items: seq<Item>, kitId: string, componentId: string)
  {
    ItemIndex(items, kitId).Some? && ItemIndex(items, componentId).Some? &&
    !IsKit(items[ItemIndex(items, componentId).value]) &&
    !HasComponent(items[ItemIndex(items, kitId).value].kitItems, componentId)
  }

  /** The kit's components after addItemToKit. */
  function Extended(items: seq<Item>, kitId: string, componentId: string, quantity: int): seq<KitComponent>
    requires ItemIndex(items, kitId).Some?
  {
    items[ItemIndex(items, kitId).value].kitItems + [KitComponent(componentId, quantity)]
  }

  /** addItemToKit: None (false) unless the checks pass; otherwise the component is appended
      to the kit, which is recalculated; nothing else changes. */
  function AddToKitOutcome(items: seq<Item>, kitId: string, componentId: string, quantity: int): (r: Option<seq<Item>>)
    requires AllKitsReady(items)
    requires KitAdditionAllowed(items, kitId, componentId) ==>
               ComposableAt(items, ItemIndex(items, kitId).value, Extended(items, kitId, componentId, quantity))
    ensures r.Some? <==> KitAdditionAllowed(items, kitId, componentId)
    ensures r.Some? ==> AllKitsReady(r.value) && |r.value| == |items|
    ensures r.Some? ==>
      var p := ItemIndex(items, kitId).value;
      r.value[p].kitItems == items[p].kitItems + [KitComponent(componentId, quantity)] &&
      forall k :: 0 <= k < |items| && k != p ==> r.value[k] == items[k]
  {
    if !KitAdditionAllowed(items, kitId, componentId) then None
    else Some(ComposedAt(items, ItemIndex(items, kitId).value, Extended(items, kitId, componentId, quantity)))
  }

  method AddItemToKit(w: Warehouse, kitId: string, componentId: string, quantity: int) returns (ok: bool)
    requires w.Valid()
    requires KitAdditionAllowed(w.items, kitId, componentId) ==>
               ComposableAt(w.items, ItemIndex(w.items, kitId).value, Extended(w.items, kitId, componentId, quantity))
    modifies w`items
    ensures w.Valid()
    ensures var r := AddToKitOutcome(old(w.items), kitId, componentId, quantity);
            ok == r.Some? && w.items == if ok then r.value else old(w.items)
  {
    var kit := ItemIndex(w.items, kitId);
    if kit.None? {
      return false;
    }
    var component := ItemIndex(w.items, componentId);
    if component.None? || IsKit(w.items[component.value]) {
      return false;
    }
    var comps := w.items[kit.value].kitItems;
    var j := 0;
    while j < |comps|
      invariant 0 <= j <= |comps|
      invariant forall i :: 0 <= i < j ==> comps[i].id != componentId
    {
      if comps[j].id == componentId {
        return false;
      }
      j := j + 1;
    }
    w.items := ComposedAt(w.items, kit.value, comps + [KitComponent(componentId, quantity)]);
    ok := true;
  }

  /** After addItemToKit the kit lists the component once, its stock is current, and a list
      whose kits were built from simple items keeps that property. */
  lemma AddToKitProperties(items: seq<Item>, kitId: string, componentId: string, quantity: int)
    requires AllKitsReady(items) && ComponentsAreSimple(items) && KitAdditionAllowed(items, kitId, componentId)
    requires IsKit(items[ItemIndex(items, kitId).value])
    requires ComposableAt(items, ItemIndex(items, kitId).value, Extended(items, kitId, componentId, quantity))
    ensures var r := AddToKitOutcome(items, kitId, componentId, quantity).value;
      var p := ItemIndex(items, kitId).value;
      ComponentsAreSimple(r) && Recalc(r[p], r) == r[p] &&
      forall j :: 0 <= j < |r[p].kitItems| - 1 ==> r[p].kitItems[j].id != componentId
  {
    var p := ItemIndex(items, kitId).value;
    var comps := Extended(items, kitId, componentId, quantity);
    forall j | 0 <= j < |comps| && ItemIndex(items, comps[j].id).Some?
      ensures !IsKit(items[ItemIndex(items, comps[j].id).value])
    {
      if j < |comps| - 1 {
        assert comps[j] == items[p].kitItems[j];
        assert 0 <= p < |items| && IsKit(items[p]) && 0 <= j < |items[p].kitItems|;
      }
    }
    ComposedKeepsSimple(items, p, comps);
    ComposedIsCurrent(items, p, comps);
  }

  /** The kit's components after removeItemFromKit: every one with another id, in order. */
  function WithoutComponent(comps: seq<KitComponent>, id: string): (r: seq<KitComponent>)
    ensures forall j :: 0 <= j < |r| ==> r[j].id != id && r[j] in comps
    ensures forall j :: 0 <= j < |comps| && comps[j].id != id ==> comps[j] in r
  {
    Filter(comps, (c: KitComponent) => c.id != id)
  }

  /** removeItemFromKit: None (false) for an unknown kit; otherwise every entry for the
      component leaves the kit, which is recalculated. An id the kit does not list is
      accepted. */
  function RemoveFromKitOutcome(items: seq<Item>, kitId: string, componentId: string): (r: Option<seq<Item>>)
    requires AllKitsReady(items)
    requires ItemIndex(items, kitId).Some? ==>
               ComposableAt(items, ItemIndex(items, kitId).value,
                            WithoutComponent(items[ItemIndex(items, kitId).value].kitItems, componentId))
    ensures r.Some? <==> ItemIndex(items, kitId).Some?
    ensures r.Some? ==> AllKitsReady(r.value) && |r.value| == |items|
    ensures r.Some? ==>
      var p := ItemIndex(items, kitId).value;
      !HasComponent(r.value[p].kitItems, componentId) &&
      (forall j :: 0 <= j < |items[p].kitItems| && items[p].kitItems[j].id != componentId ==>
         items[p].kitItems[j] in r.value[p].kitItems) &&
      (forall j :: 0 <= j < |r.value[p].kitItems| ==> r.value[p].kitItems[j] in items[p].kitItems) &&
      forall k :: 0 <= k < |items| && k != p ==> r.value[k] == items[k]
  {
    match ItemIndex(items, kitId)
    case None => None
    case Some(p) => Some(ComposedAt(items, p, WithoutComponent(items[p].kitItems, componentId)))
  }

  method RemoveItemFromKit(w: Warehouse, kitId: string, componentId: string) returns (ok: bool)
    requires w.Valid()
    requires ItemIndex(w.items, kitId).Some? ==>
               ComposableAt(w.items, ItemIndex(w.items, kitId).value,
                            WithoutComponent(w.items[ItemIndex(w.items, kitId).value].kitItems, componentId))
    modifies w`items
    ensures w.Valid()
    ensures var r := RemoveFromKitOutcome(old(w.items), kitId, componentId);
            ok == r.Some? && w.items == if ok then r.value else old(w.items)
  {
    var kit := ItemIndex(w.items, kitId);
    if kit.None? {
      return false;
    }
    var p := kit.value;
    w.items := ComposedAt(w.items, p, WithoutComponent(w.items[p].kitItems, componentId));
    ok := true;
  }

  /** Removing a component keeps kits built from simple items, and the kit's stock current. */
  lemma RemoveFromKitProperties(items: seq<Item>, kitId: string, componentId: string)
    requires AllKitsReady(items) && ComponentsAreSimple(items) && ItemIndex(items, kitId).Some?
    requires IsKit(items[ItemIndex(items, kitId).value])
    requires ComposableAt(items, ItemIndex(items, kitId).value,
                          WithoutComponent(items[ItemIndex(items, kitId).value].kitItems, componentId))
    ensures var r := RemoveFromKitOutcome(items, kitId, componentId).value;
      var p := ItemIndex(items, kitId).value;
      ComponentsAreSimple(r) && Recalc(r[p], r) == r[p]
  {
    var p := ItemIndex(items, kitId).value;
    var comps := WithoutComponent(items[p].kitItems, componentId);
    forall j | 0 <= j < |comps| && ItemIndex(items, comps[j].id).Some?
      ensures !IsKit(items[ItemIndex(items, comps[j].id).value])
    {
      var i :| 0 <= i < |items[p].kitItems| && items[p].kitItems[i] == comps[j];
    }
    ComposedKeepsSimple(items, p, comps);
    ComposedIsCurrent(items, p, comps);
  }

  /** The validation of updateKitComposition: every component names a simple item. */
  predicate CompositionAllowed(items: seq<Item>, comps: seq<KitComponent>)
  {
    forall j :: 0 <= j < |comps| ==>
      ItemIndex(items, comps[j].id).Some? && !IsKit(items[ItemIndex(items, comps[j].id).value])
  }

  /** updateKitComposition: None (false) for an unknown kit, or when one component is
      missing or is a kit, the components untouched; otherwise the list replaces the kit's
      components as given, and the kit is recalculated. */
  function CompositionOutcome(items: seq<Item>, kitId: string, comps: seq<KitComponent>): (r: Option<seq<Item>>)
    requires AllKitsReady(items)
    requires ItemIndex(items, kitId).Some? && CompositionAllowed(items, comps) ==>
               ComposableAt(items, ItemIndex(items, kitId).value, comps)
    ensures r.Some? <==> ItemIndex(items, kitId).Some? && CompositionAllowed(items, comps)
    ensures r.Some? ==> AllKitsReady(r.value) && |r.value| == |items|
    ensures r.Some? ==>
      var p := ItemIndex(items, kitId).value;
      r.value[p].kitItems == comps && forall k :: 0 <= k < |items| && k != p ==> r.value[k] == items[k]
  {
    match ItemIndex(items, kitId)
    case None => None
    case Some(p) => if CompositionAllowed(items, comps) then Some(ComposedAt(items, p, comps)) else None
  }

  method UpdateKitComposition(w: Warehouse, kitId: string, comps: seq<KitComponent>) returns (ok: bool)
    requires w.Valid()
    requires ItemIndex(w.items, kitId).Some? && CompositionAllowed(w.items, comps) ==>
               ComposableAt(w.items, ItemIndex(w.items, kitId).value, comps)
    modifies w`items
    ensures w.Valid()
    ensures var r := CompositionOutcome(old(w.items), kitId, comps);
            ok == r.Some? && w.items == if ok then r.value else old(w.items)
  {
    var kit := ItemIndex(w.items, kitId);
    if kit.None? {
      return false;
    }
    var j := 0;
    while j < |comps|
      invariant 0 <= j <= |comps|
      invariant forall i :: 0 <= i < j ==>
        ItemIndex(w.items, comps[i].id).Some? && !IsKit(w.items[ItemIndex(w.items, comps[i].id).value])
    {
      var found := ItemIndex(w.items, comps[j].id);
      if found.None? || IsKit(w.items[found.value]) {
        return false;
      }
      j := j + 1;
    }
    w.items := ComposedAt(w.items, kit.value, comps);
    ok := true;
  }

  /** An accepted composition keeps kits built from simple items, and the kit's stock current;
      all its components then resolve. */
  lemma CompositionProperties(items: seq<Item>, kitId: string, comps: seq<KitComponent>)
    requires AllKitsReady(items) && ComponentsAreSimple(items) && ItemIndex(items, kitId).Some?
    requires CompositionAllowed(items, comps) && ComposableAt(items, ItemIndex(items, kitId).value, comps)
    ensures var r := CompositionOutcome(items, kitId, comps).value;
      var p := ItemIndex(items, kitId).value;
      ComponentsAreSimple(r) && Recalc(r[p], r) == r[p] &&
      forall j :: 0 <= j < |comps| ==> ItemIndex(r, comps[j].id).Some?
  {
    var p := ItemIndex(items, kitId).value;
    ComposedKeepsSimple(items, p, comps);
    ComposedIsCurrent(items, p, comps);
    ComposedShape(items, p, comps);
  }

  // ---- createItem ----

  /** The form of createItem and updateItem, with "" for a field left blank. The initial
      stock is read by createItem only. */
  datatype ItemDetails = ItemDetails(
    name: string,
    barcode: string,
    empresa: string,
    itemType: string,
    price: real,
    shelfLifeDays: int,
    minStock: int,
    maxStock: int,
    status: string,
    location: Location,
    initialStock: int)

  const InitialStockResponsible: string := "Estoque Inicial"
  const DefaultStatus: string := "Ativo"
  const NoStatus: string := "N/A"

  /** An item of that company already has the name, ignoring case. */
  predicate NameTaken(items: seq<Item>, name: string, empresa: string)
  {
    exists k :: 0 <= k < |items| && SameIgnoringCase(items[k].name, name) && items[k].empresa == empresa
  }

  /** A non-blank barcode that an item other than `except` already carries, once trimmed. */
  predicate BarcodeTaken(items: seq<Item>, barcode: string, except: Option<string>)
  {
    Trim(barcode) != "" &&
    exists k :: 0 <= k < |items| && items[k].barcode == Trim(barcode) && Some(items[k].id) != except
  }

  /** The duplicate checks of createItem as written: the name as typed against the stored
      (trimmed) names. */
  predicate CreationAllowedAsWritten(items: seq<Item>, d: ItemDetails)
  {
    !NameTaken(items, d.name, d.empresa) && !BarcodeTaken(items, d.barcode, None)
  }

  /** The duplicate checks of createItem as intended: the name that will be stored. */
  predicate CreationAllowed(items: seq<Item>, d: ItemDetails)
  {
    !NameTaken(items, Trim(d.name), d.empresa) && !BarcodeTaken(items, d.barcode, None)
  }

  /** isReturnable ? (status || 'Ativo') : 'N/A' */
  function StatusFor(returnable: bool, status: string): string
  {
    if !returnable then NoStatus else if status != "" then status else DefaultStatus
  }

  function TrimmedLocation(loc: Location): Location
  {
    Location(Trim(loc.aisle), Trim(loc.shelf), Trim(loc.box))
  }

  /** The new item before its stock is computed: the id given, the text fields trimmed, the
      type's returnability, no stock, no loans, no components; a simple item with a positive
      initial stock gets one batch of it dated today and an entry record. */
  function Draft(id: string, d: ItemDetails, returnableTypes: seq<string>, batchId: string, now: int): (it: Item)
    ensures it.id == id && it.name == Trim(d.name) && it.barcode == Trim(d.barcode)
    ensures it.itemType == d.itemType && it.empresa == d.empresa && it.price == d.price
    ensures it.isReturnable <==> d.itemType in returnableTypes
    ensures !it.isReturnable ==> it.status == NoStatus
    ensures it.onLoanCount == 0 && it.allocations == [] && it.kitItems == [] && KitReady(it)
    ensures d.initialStock > 0 && !IsKit(it) ==>
      it.batches == [Batch(batchId, d.initialStock, Day(DayOf(now)), Absent, d.shelfLifeDays, false)] &&
      it.history == [HistoryRecord(Entry, d.initialStock, now, InitialStockResponsible)]
    ensures d.initialStock <= 0 || IsKit(it) ==> it.batches == [] && it.history == []
  {
    var returnable := d.itemType in returnableTypes;
    var blank := Item(id, Trim(d.name), d.itemType, Trim(d.barcode), d.empresa, d.price, d.shelfLifeDays,
                      d.minStock, d.maxStock, returnable, StatusFor(returnable, d.status),
                      Some(TrimmedLocation(d.location)), 0, 0, 0, [], [], [], []);
    if d.initialStock > 0 && d.itemType != KitType then
      blank.(batches := [Batch(batchId, d.initialStock, Day(DayOf(now)), Absent, d.shelfLifeDays, false)],
             history := [HistoryRecord(Entry, d.initialStock, now, InitialStockResponsible)])
    else blank
  }

  /** The item createItem stores: the draft with its stock. A simple item holds exactly its
      positive initial stock, all of it available; a kit starts with no stock. */
  function Created(id: string, d: ItemDetails, returnableTypes: seq<string>, batchId: string, now: int): (it: Item)
    ensures it == Draft(id, d, returnableTypes, batchId, now).(totalStock := it.totalStock, currentStock := it.currentStock)
    ensures KitReady(it) && it.onLoanCount == 0 && it.allocations == []
    ensures !IsKit(it) ==> it.totalStock == Max0(d.initialStock) && it.currentStock == Max0(d.initialStock)
    ensures IsKit(it) ==> it.totalStock == 0 && it.currentStock == 0
  {
    var dr := Draft(id, d, returnableTypes, batchId, now);
    TotalSingle(Batch(batchId, d.initialStock, Day(DayOf(now)), Absent, d.shelfLifeDays, false));
    var t := if IsKit(dr) then 0 else Total(dr.batches);
    dr.(totalStock := t, currentStock := t)
  }

  /** That stock is what recalculateStockFromBatches gives the draft against any list. */
  lemma CreatedIsRecalculated(id: string, d: ItemDetails, returnableTypes: seq<string>, batchId: string, now: int,
                              items: seq<Item>)
    ensures Created(id, d, returnableTypes, batchId, now) == Recalc(Draft(id, d, returnableTypes, batchId, now), items)
  {
    TotalSingle(Batch(batchId, d.initialStock, Day(DayOf(now)), Absent, d.shelfLifeDays, false));
  }

  lemma AppendReady(items: seq<Item>, it: Item)
    requires AllKitsReady(items) && KitReady(it)
    ensures AllKitsReady(items + [it])
  {
    assert forall k :: 0 <= k < |items| ==> (items + [it])[k] == items[k];
  }

  /** The ids createItem draws: one for the item, and one for its first batch if it has one. */
  function IdsUsed(d: ItemDetails): (n: nat)
    ensures n >= 1
  {
    if d.initialStock > 0 && d.itemType != KitType then 2 else 1
  }

  /** createItem: None (null) when a check fails; otherwise the item, with a fresh id (and a
      second one for its first batch when it has one), is appended to the list. */
  function CreateItemOutcome(l: Ledger, returnableTypes: seq<string>, d: ItemDetails, now: int): (r: Outcome)
    requires AllKitsReady(l.items)
    ensures AllKitsReady(r.ledger.items) && r.ledger.debits == l.debits && r.ledger.orders == l.orders
    ensures r.ok <==> CreationAllowedAsWritten(l.items, d)
    ensures !r.ok ==> r.ledger == l
    ensures r.ok ==> r.ledger.items == l.items + [Created(MintId(l.next), d, returnableTypes, MintId(l.next + 1), now)]
    ensures r.ok ==> r.ledger.next == l.next + IdsUsed(d)
  {
    if !CreationAllowedAsWritten(l.items, d) then Outcome(false, l)
    else
      var it := Created(MintId(l.next), d, returnableTypes, MintId(l.next + 1), now);
      AppendReady(l.items, it);
      Outcome(true, l.(items := l.items + [it], next := l.next + IdsUsed(d)))
  }

  method CreateItem(w: Warehouse, d: ItemDetails, now: int) returns (created: Option<Item>)
    requires w.Valid()
    modifies w`items, w`nextId
    ensures w.Valid()
    ensures var r := CreateItemOutcome(old(w.LedgerOf()), ReturnableTypes(w.Settings()), d, now);
            created.Some? == r.ok && w.LedgerOf() == r.ledger &&
            (r.ok ==> created.value == r.ledger.items[|old(w.items)|])
  {
    created := CreateItemAs(w, d, now, ReturnableTypes(w.Settings()));
  }

  /** createItem once the returnable types have been read from the settings. */
  method CreateItemAs(w: Warehouse, d: ItemDetails, now: int, rt: seq<string>) returns (created: Option<Item>)
    requires w.Valid()
    modifies w`items, w`nextId
    ensures w.Valid()
    ensures var r := CreateItemOutcome(old(w.LedgerOf()), rt, d, now);
            created.Some? == r.ok && w.LedgerOf() == r.ledger &&
            (r.ok ==> created.value == r.ledger.items[|old(w.items)|])
  {
    ghost var l := w.LedgerOf();
    if !CreationAllowedAsWritten(w.items, d) {
      return None;
    }
    var id := w.FreshId();
    var batchId := MintId(w.nextId);
    if d.initialStock > 0 && d.itemType != KitType {
      batchId := w.FreshId();
    }
    var it := Created(id, d, rt, batchId, now);
    AppendReady(w.items, it);
    w.items := w.items + [it];
    created := Some(it);
    CreatedLedger(l, rt, d, now);
  }

  /** The ledger a successful createItem leaves. */
  lemma CreatedLedger(l: Ledger, rt: seq<string>, d: ItemDetails, now: int)
    requires AllKitsReady(l.items) && CreationAllowedAsWritten(l.items, d)
    ensures CreateItemOutcome(l, rt, d, now) ==
      Outcome(true, Ledger(l.items + [Created(MintId(l.next), d, rt, MintId(l.next + 1), now)], l.debits, l.orders, l.next + IdsUsed(d)))
  {
  }

  /** No two items of one company share a name, ignoring case. */
  predicate NamesUnique(items: seq<Item>)
  {
    forall i, j :: 0 <= i < j < |items| ==>
      !(SameIgnoringCase(items[i].name, items[j].name) && items[i].empresa == items[j].empresa)
  }

  /** An item whose name is not taken in its company keeps the names unique; one whose
      name is taken does not. */
  lemma AppendNamesUnique(items: seq<Item>, it: Item)
    requires NamesUnique(items)
    ensures NamesUnique(items + [it]) <==> !NameTaken(items, it.name, it.empresa)
  {
    var r := items + [it];
    if !NameTaken(items, it.name, it.empresa) {
      forall i, j | 0 <= i < j < |r| && r[i].empresa == r[j].empresa
        ensures !SameIgnoringCase(r[i].name, r[j].name)
      {
        assert r[i] == items[i];
        if j < |items| {
          assert r[j] == items[j];
        }
      }
    } else {
      var k :| 0 <= k < |items| && SameIgnoringCase(items[k].name, it.name) && items[k].empresa == it.empresa;
      assert r[k] == items[k] && r[|items|] == it;
    }
  }

  /** The checks as intended keep the names unique: the stored name is the one checked. */
  lemma CreateKeepsNamesUnique(items: seq<Item>, d: ItemDetails, id: string, rt: seq<string>, batchId: string, now: int)
    requires NamesUnique(items) && CreationAllowed(items, d)
    ensures NamesUnique(items + [Created(id, d, rt, batchId, now)])
  {
    AppendNamesUnique(items, Created(id, d, rt, batchId, now));
  }

  /** createItem as written keeps the names unique when the name typed has no surrounding
      whitespace, so that the name checked is the name stored. */
  lemma CreateOutcomeKeepsNamesUnique(l: Ledger, rt: seq<string>, d: ItemDetails, now: int)
    requires AllKitsReady(l.items) && NamesUnique(l.items) && Trim(d.name) == d.name
    ensures NamesUnique(CreateItemOutcome(l, rt, d, now).ledger.items)
  {
    if CreationAllowedAsWritten(l.items, d) {
      CreateKeepsNamesUnique(l.items, d, MintId(l.next), rt, MintId(l.next + 1), now);
    }
  }

  function SampleItem(id: string, name: string, empresa: string): Item
  {
    Item(id, name, "Ferramenta", "", empresa, 0.0, 0, 0, 0, false, NoStatus, None, 0, 0, 0, [], [], [], [])
  }

  lemma TrimSample()
    ensures Trim(" Serra") == "Serra" && Trim("") == ""
    ensures !SameIgnoringCase("Serra", " Serra") && SameIgnoringCase("Serra", "Serra")
  {
    assert TrimStart(" Serra") == "Serra" by {
      assert " Serra"[1..] == "Serra";
    }
    assert |ToLower("Serra")| != |ToLower(" Serra")|;
  }

  /** The checks as written let " Serra" through when "Serra" of the same company exists,
      and the item stored is then a second "Serra". */
  lemma CreationAsWrittenDuplicates()
    ensures var items := [SampleItem("a", "Serra", "E")];
      var d := ItemDetails(" Serra", "", "E", "Ferramenta", 0.0, 0, 0, 0, "", Location("", "", ""), 0);
      CreationAllowedAsWritten(items, d) && NamesUnique(items) && !NamesUnique(items + [Created("b", d, [], "c", 0)])
  {
    var items := [SampleItem("a", "Serra", "E")];
    var d := ItemDetails(" Serra", "", "E", "Ferramenta", 0.0, 0, 0, 0, "", Location("", "", ""), 0);
    TrimSample();
    var it := Created("b", d, [], "c", 0);
    assert it.name == "Serra" && it.empresa == "E";
    assert items[0].name == "Serra";
    assert NameTaken(items, it.name, it.empresa);
    AppendNamesUnique(items, it);
  }

  // ---- updateItem ----

  /** Another item already has the name, ignoring case (any company). */
  predicate NameTakenByOther(items: seq<Item>, id: string, name: string)
  {
    exists k :: 0 <= k < |items| && items[k].id != id && SameIgnoringCase(items[k].name, name)
  }

  /** The checks of updateItem on the item at p: the name and the barcode are not another
      item's; a returnable item with units on loan stays returnable; an item with stock does
      not become a kit. */
  predicate UpdateAllowed(items: seq<Item>, p: nat, d: ItemDetails, returnableTypes: seq<string>)
    requires p < |items|
  {
    var it := items[p];
    !NameTakenByOther(items, it.id, d.name) && !BarcodeTaken(items, d.barcode, Some(it.id)) &&
    !(it.isReturnable && d.itemType !in returnableTypes && it.onLoanCount > 0) &&
    !(d.itemType == KitType && !IsKit(it) && it.totalStock > 0)
  }

  /** The item with the form's fields. An item that becomes a kit starts without components
      and without batches; one that stops being a kit loses its components. Stock figures,
      loans and history are kept. */
  function EditedItem(it: Item, d: ItemDetails, returnableTypes: seq<string>): (r: Item)
    ensures KitReady(it) ==> KitReady(r)
  {
    var returnable := d.itemType in returnableTypes;
    var e := it.(name := Trim(d.name), barcode := Trim(d.barcode), empresa := d.empresa, itemType := d.itemType,
                 minStock := d.minStock, maxStock := d.maxStock, price := d.price, shelfLifeDays := d.shelfLifeDays,
                 location := Some(TrimmedLocation(d.location)), isReturnable := returnable,
                 status := StatusFor(returnable, d.status));
    if d.itemType == KitType && !IsKit(it) then e.(kitItems := [], batches := [])
    else if d.itemType != KitType then e.(kitItems := [])
    else e
  }

  /** updateItem: None (null) for an unknown item or when a check fails; otherwise the item
      is replaced by its edited form, recalculated against the list (kits that use it are
      not recalculated). */
  function UpdateItemOutcome(items: seq<Item>, id: string, d: ItemDetails, returnableTypes: seq<string>)
    : (r: Option<seq<Item>>)
    requires AllKitsReady(items)
    ensures r.Some? <==> ItemIndex(items, id).Some? && UpdateAllowed(items, ItemIndex(items, id).value, d, returnableTypes)
    ensures r.Some? ==> AllKitsReady(r.value) && |r.value| == |items| &&
                        forall k :: 0 <= k < |items| && k != ItemIndex(items, id).value ==> r.value[k] == items[k]
  {
    match ItemIndex(items, id)
    case None => None
    case Some(p) =>
      if !UpdateAllowed(items, p, d, returnableTypes) then None
      else Some(RecalcAt(items[p := EditedItem(items[p], d, returnableTypes)], p))
  }

  method UpdateItem(w: Warehouse, id: string, d: ItemDetails) returns (updated: Option<Item>)
    requires w.Valid()
    modifies w`items
    ensures w.Valid()
    ensures var r := UpdateItemOutcome(old(w.items), id, d, ReturnableTypes(w.Settings()));
            updated.Some? == r.Some? && w.items == (if r.Some? then r.value else old(w.items)) &&
            (r.Some? ==> updated.value == r.value[ItemIndex(old(w.items), id).value])
  {
    var found := ItemIndex(w.items, id);
    if found.None? {
      return None;
    }
    var p := found.value;
    var returnables := ReturnableTypes(w.Settings());
    if !UpdateAllowed(w.items, p, d, returnables) {
      return None;
    }
    w.items := RecalcAt(w.items[p := EditedItem(w.items[p], d, returnables)], p);
    updated := Some(w.items[p]);
  }

  /** What an accepted edit keeps: the id, the loans and the history; units on loan of a
      returnable item keep it returnable; an item that becomes a kit had no stock and has
      none; a simple item's figures follow its batches. */
  lemma UpdateItemProperties(items: seq<Item>, id: string, d: ItemDetails, returnableTypes: seq<string>)
    requires AllKitsReady(items) && UpdateItemOutcome(items, id, d, returnableTypes).Some?
    ensures var p := ItemIndex(items, id).value;
      var it := items[p];
      var r := UpdateItemOutcome(items, id, d, returnableTypes).value[p];
      r.id == id && r.name == Trim(d.name) && r.itemType == d.itemType &&
      r.onLoanCount == it.onLoanCount && r.allocations == it.allocations && r.history == it.history &&
      (it.isReturnable && it.onLoanCount > 0 ==> r.isReturnable) &&
      (IsKit(r) && !IsKit(it) ==> it.totalStock <= 0 && r.kitItems == [] && r.totalStock == 0 && r.currentStock == 0) &&
      (!IsKit(r) ==> r.kitItems == [] && r.totalStock == Total(it.batches) &&
                     r.currentStock == Max0(Total(it.batches) - it.onLoanCount))
  {
  }

  // ---- deleteItem ----

  /** Some kit lists the item among its components. */
  predicate Referenced(items: seq<Item>, id: string)
  {
    exists k :: 0 <= k < |items| && References(items[k], id)
  }

  /** The checks of deleteItem: the item exists, has no stock, nothing on loan, is not a kit
      with components, and no kit lists it. */
  predicate DeletionAllowed(items: seq<Item>, id: string)
  {
    ItemIndex(items, id).Some? &&
    var it := items[ItemIndex(items, id).value];
    it.totalStock <= 0 && it.onLoanCount <= 0 && !(IsKit(it) && it.kitItems != []) && !Referenced(items, id)
  }

  function WithoutItem(items: seq<Item>, id: string): (r: seq<Item>)
    ensures forall k :: 0 <= k < |r| ==> r[k].id != id && r[k] in items
    ensures forall k :: 0 <= k < |items| && items[k].id != id ==> items[k] in r
  {
    Filter(items, (it: Item) => it.id != id)
  }

  /** deleteItem: None (false) when a check fails; otherwise the item leaves the list and
      every other item stays. */
  function DeleteItemOutcome(items: seq<Item>, id: string): (r: Option<seq<Item>>)
    requires AllKitsReady(items)
    ensures r.Some? <==> DeletionAllowed(items, id)
    ensures r.Some? ==> AllKitsReady(r.value) && ItemIndex(r.value, id).None?
    ensures r.Some? ==> forall k :: 0 <= k < |items| && items[k].id != id ==> items[k] in r.value
    ensures r.Some? ==> forall k :: 0 <= k < |r.value| ==> r.value[k] in items
  {
    if !DeletionAllowed(items, id) then None
    else
      var r := WithoutItem(items, id);
      assert forall k :: 0 <= k < |r| ==> KitReady(r[k]) by {
        forall k | 0 <= k < |r| ensures KitReady(r[k]) {
          var j :| 0 <= j < |items| && items[j] == r[k];
        }
      }
      Some(r)
  }

  method DeleteItem(w: Warehouse, id: string) returns (ok: bool)
    requires w.Valid()
    modifies w`items
    ensures w.Valid()
    ensures var r := DeleteItemOutcome(old(w.items), id);
            ok == r.Some? && w.items == if ok then r.value else old(w.items)
  {
    var found := ItemIndex(w.items, id);
    if found.None? {
      return false;
    }
    var it := w.items[found.value];
    if it.totalStock > 0 || it.onLoanCount > 0 || (IsKit(it) && it.kitItems != []) {
      return false;
    }
    var k := 0;
    while k < |w.items|
      invariant 0 <= k <= |w.items|
      invariant forall j :: 0 <= j < k ==> !References(w.items[j], id)
    {
      if References(w.items[k], id) {
        return false;
      }
      k := k + 1;
    }
    w.items := DeleteItemOutcome(w.items, id).value;
    ok := true;
  }

  /** Every kit's components name items of the list. */
  predicate KitsResolve(items: seq<Item>)
  {
    forall k :: 0 <= k < |items| && IsKit(items[k]) ==> AllResolve(items, items[k].kitItems)
  }

  lemma MemberIndex(items: seq<Item>, x: Item)
    requires x in items
    ensures ItemIndex(items, x.id).Some?
  {
    var k :| 0 <= k < |items| && items[k] == x;
  }

  /** A deletion never leaves a kit with a component that names no item. */
  lemma DeleteKeepsKitsResolved(items: seq<Item>, id: string)
    requires AllKitsReady(items) && KitsResolve(items) && DeletionAllowed(items, id)
    ensures KitsResolve(DeleteItemOutcome(items, id).value)
  {
    var r := DeleteItemOutcome(items, id).value;
    forall k, c | 0 <= k < |r| && IsKit(r[k]) && 0 <= c < |r[k].kitItems|
      ensures Resolves(r, r[k].kitItems[c])
    {
      var i :| 0 <= i < |items| && items[i] == r[k];
      var comp := r[k].kitItems[c];
      assert Resolves(items, comp);
      assert comp.id != id by {
        assert !References(items[i], id);
      }
      var m := ItemIndex(items, comp.id).value;
      assert items[m] in r;
      MemberIndex(r, items[m]);
    }
  }

  // ---- addMultipleItems ----

  const BulkType: string := "Ferramenta"
  const BulkCompany: string := "Weldingpro"
  const BulkUnnamed: string := "NOME VAZIO"

  /** One line of a bulk import: a name and a type ("" when none is given). */
  datatype BulkLine = BulkLine(name: string, itemType: string)

  /** The state of the forEach of addMultipleItems: the list, the lower-cased names seen,
      the id counter and the names reported; the items added are the tail of the list. */
  datatype Bulk = Bulk(items: seq<Item>, names: set<string>, next: nat, addedNames: seq<string>,
                       ignoredNames: seq<string>)

  function NameSet(items: seq<Item>): set<string>
  {
    set k | 0 <= k < |items| :: ToLower(items[k].name)
  }

  lemma NameSetAppend(items: seq<Item>, it: Item)
    ensures NameSet(items + [it]) == NameSet(items) + {ToLower(it.name)}
  {
    var r := items + [it];
    forall x | x in NameSet(items) ensures x in NameSet(r) {
      var k :| 0 <= k < |items| && x == ToLower(items[k].name);
      assert r[k] == items[k];
    }
    forall x | x in NameSet(r) ensures x in NameSet(items) + {ToLower(it.name)} {
      var k :| 0 <= k < |r| && x == ToLower(r[k].name);
      if k < |items| {
        assert r[k] == items[k];
      }
    }
    assert ToLower(r[|items|].name) == ToLower(it.name);
  }

  /** The empty item addMultipleItems creates; a missing type counts as a tool. */
  function BulkItem(id: string, name: string, itemType: string, returnableTypes: seq<string>): (it: Item)
    ensures it.id == id && it.name == name && it.empresa == BulkCompany && it.kitItems == []
    ensures it.itemType == (if itemType != "" then itemType else BulkType)
    ensures it.isReturnable <==> it.itemType in returnableTypes
    ensures it.totalStock == 0 && it.currentStock == 0 && it.batches == [] && it.history == []
  {
    var t := if itemType != "" then itemType else BulkType;
    var returnable := t in returnableTypes;
    Item(id, name, t, "", BulkCompany, 0.0, 0, 0, 0, returnable, if returnable then DefaultStatus else NoStatus,
         Some(Location("", "", "")), 0, 0, 0, [], [], [], [])
  }

  /** One line: a blank name, or one already seen ignoring case, is ignored; otherwise an
      empty item with that (trimmed) name is appended. */
  function BulkStep(b: Bulk, line: BulkLine, returnableTypes: seq<string>): (s: Bulk)
    ensures |s.addedNames| + |s.ignoredNames| == |b.addedNames| + |b.ignoredNames| + 1
    ensures |s.items| - |b.items| == |s.addedNames| - |b.addedNames| && |b.items| <= |s.items| <= |b.items| + 1
    ensures s.next == b.next + |s.items| - |b.items|
    ensures s.items[..|b.items|] == b.items && s.addedNames[..|b.addedNames|] == b.addedNames
    ensures forall k :: |b.items| <= k < |s.items| ==>
      s.items[k].name != "" && s.items[k].kitItems == [] && ToLower(s.items[k].name) !in b.names
    ensures b.names == NameSet(b.items) ==> s.names == NameSet(s.items)
  {
    var name := Trim(line.name);
    if name == "" || ToLower(name) in b.names then
      b.(ignoredNames := b.ignoredNames + [if name == "" then BulkUnnamed else name])
    else
      var it := BulkItem(MintId(b.next), name, line.itemType, returnableTypes);
      NameSetAppend(b.items, it);
      assert (b.items + [it])[..|b.items|] == b.items;
      assert (b.addedNames + [name])[..|b.addedNames|] == b.addedNames;
      b.(items := b.items + [it], names := b.names + {ToLower(name)}, next := b.next + 1,
         addedNames := b.addedNames + [name])
  }

  /** Names never repeat, ignoring case, among the items from position n on and those before. */
  predicate FreshFrom(items: seq<Item>, n: nat)
  {
    forall i, j :: 0 <= i < j < |items| && n <= j ==> ToLower(items[i].name) != ToLower(items[j].name)
  }

  /** The lines from position i on. Every line is added or ignored, and the list only grows,
      by one kitless item with a non-blank name for each name added. */
  function BulkFrom(b: Bulk, lines: seq<BulkLine>, i: nat, returnableTypes: seq<string>): (r: Bulk)
    requires i <= |lines|
    ensures |r.addedNames| + |r.ignoredNames| == |b.addedNames| + |b.ignoredNames| + |lines| - i
    ensures |r.items| - |b.items| == |r.addedNames| - |b.addedNames| >= 0
    ensures r.next == b.next + |r.items| - |b.items|
    ensures r.items[..|b.items|] == b.items && r.addedNames[..|b.addedNames|] == b.addedNames
    ensures forall k :: |b.items| <= k < |r.items| ==> r.items[k].name != "" && r.items[k].kitItems == []
    ensures b.names == NameSet(b.items) ==> r.names == NameSet(r.items)
    decreases |lines| - i
  {
    if i == |lines| then b
    else
      var s := BulkStep(b, lines[i], returnableTypes);
      var r := BulkFrom(s, lines, i + 1, returnableTypes);
      assert r.items[..|b.items|] == s.items[..|s.items|][..|b.items|];
      assert r.addedNames[..|b.addedNames|] == s.addedNames[..|s.addedNames|][..|b.addedNames|];
      assert forall k :: |b.items| <= k < |s.items| ==> r.items[k] == s.items[k];
      r
  }

  /** A step keeps the names from position n on fresh when the seen names are the list's. */
  lemma StepFresh(b: Bulk, line: BulkLine, returnableTypes: seq<string>, n: nat)
    requires b.names == NameSet(b.items) && n <= |b.items| && FreshFrom(b.items, n)
    ensures FreshFrom(BulkStep(b, line, returnableTypes).items, n)
  {
    var s := BulkStep(b, line, returnableTypes);
    forall i, j | 0 <= i < j < |s.items| && n <= j ensures ToLower(s.items[i].name) != ToLower(s.items[j].name) {
      assert s.items[i] == b.items[i];
      if j == |b.items| {
        assert ToLower(b.items[i].name) in b.names;
      } else {
        assert s.items[j] == b.items[j];
      }
    }
  }

  lemma {:induction false} BulkFromFresh(b: Bulk, lines: seq<BulkLine>, i: nat, returnableTypes: seq<string>, n: nat)
    requires i <= |lines| && b.names == NameSet(b.items) && n <= |b.items| && FreshFrom(b.items, n)
    ensures FreshFrom(BulkFrom(b, lines, i, returnableTypes).items, n)
    decreases |lines| - i
  {
    if i < |lines| {
      StepFresh(b, lines[i], returnableTypes, n);
      BulkFromFresh(BulkStep(b, lines[i], returnableTypes), lines, i + 1, returnableTypes, n);
    }
  }

  function BulkStart(items: seq<Item>, next: nat): (b: Bulk)
    ensures b.items == items && b.names == NameSet(items) && b.next == next
    ensures b.addedNames == [] && b.ignoredNames == []
  {
    Bulk(items, NameSet(items), next, [], [])
  }

  /** addMultipleItems over the whole input. */
  function BulkAdd(items: seq<Item>, next: nat, lines: seq<BulkLine>, returnableTypes: seq<string>): Bulk
  {
    BulkFrom(BulkStart(items, next), lines, 0, returnableTypes)
  }

  /** Every line is counted once as added or ignored; one item is appended after the existing
      ones for each name added, none with a blank name or a name (ignoring case) already
      present or added before it. */
  lemma BulkAddSummary(items: seq<Item>, next: nat, lines: seq<BulkLine>, returnableTypes: seq<string>)
    ensures var r := BulkAdd(items, next, lines, returnableTypes);
      |r.addedNames| + |r.ignoredNames| == |lines| && |r.items| == |items| + |r.addedNames| &&
      r.items[..|items|] == items && FreshFrom(r.items, |items|) &&
      (forall k :: |items| <= k < |r.items| ==> r.items[k].name != "")
  {
    BulkFromFresh(BulkStart(items, next), lines, 0, returnableTypes, |items|);
  }

  /** The items added are no kits with unresolved requirements, so the kits stay ready. */
  lemma BulkAddReady(items: seq<Item>, next: nat, lines: seq<BulkLine>, returnableTypes: seq<string>)
    requires AllKitsReady(items)
    ensures AllKitsReady(BulkAdd(items, next, lines, returnableTypes).items)
  {
    var r := BulkAdd(items, next, lines, returnableTypes);
    forall k | 0 <= k < |r.items| ensures KitReady(r.items[k]) {
      if k < |items| {
        assert r.items[k] == r.items[..|items|][k];
      }
    }
  }

  method AddMultipleItems(w: Warehouse, lines: seq<BulkLine>)
    returns (added: nat, ignored: nat, addedNames: seq<string>, ignoredNames: seq<string>, addedItems: seq<Item>)
    requires w.Valid()
    modifies w`items, w`nextId
    ensures w.Valid()
    ensures var r := BulkAdd(old(w.items), old(w.nextId), lines, ReturnableTypes(w.Settings()));
      w.items == r.items && w.nextId == r.next && added == |r.addedNames| && ignored == |r.ignoredNames| &&
      addedNames == r.addedNames && ignoredNames == r.ignoredNames && addedItems == r.items[|old(w.items)|..]
  {
    added, ignored, addedNames, ignoredNames, addedItems := AddMultipleItemsAs(w, lines, ReturnableTypes(w.Settings()));
  }

  /** The body of addMultipleItems' loop for one line. */
  method BulkStepOn(b: Bulk, line: BulkLine, returnables: seq<string>) returns (s: Bulk)
    ensures s == BulkStep(b, line, returnables)
  {
    var name := Trim(line.name);
    if name == "" || ToLower(name) in b.names {
      s := b.(ignoredNames := b.ignoredNames + [if name == "" then BulkUnnamed else name]);
    } else {
      var it := BulkItem(MintId(b.next), name, line.itemType, returnables);
      s := b.(items := b.items + [it], names := b.names + {ToLower(name)}, next := b.next + 1,
              addedNames := b.addedNames + [name]);
    }
  }

  /** addMultipleItems once the returnable types have been read from the settings. */
  method AddMultipleItemsAs(w: Warehouse, lines: seq<BulkLine>, returnables: seq<string>)
    returns (added: nat, ignored: nat, addedNames: seq<string>, ignoredNames: seq<string>, addedItems: seq<Item>)
    requires w.Valid()
    modifies w`items, w`nextId
    ensures w.Valid()
    ensures var r := BulkAdd(old(w.items), old(w.nextId), lines, returnables);
      w.items == r.items && w.nextId == r.next && added == |r.addedNames| && ignored == |r.ignoredNames| &&
      addedNames == r.addedNames && ignoredNames == r.ignoredNames && addedItems == r.items[|old(w.items)|..]
  {
    var items0, next0 := w.items, w.nextId;
    ghost var r := BulkAdd(items0, next0, lines, returnables);
    BulkAddReady(items0, next0, lines, returnables);
    var b := BulkStart(items0, next0);
    var i := 0;
    while i < |lines|
      invariant 0 <= i <= |lines|
      invariant BulkFrom(b, lines, i, returnables) == r
      invariant w.items == items0 && w.nextId == next0
    {
      b := BulkStepOn(b, lines[i], returnables);
      i := i + 1;
    }
    assert BulkFrom(b, lines, i, returnables) == b;
    assert b == r && |b.items| >= |BulkStart(items0, next0).items| == |items0|;
    addedItems := b.items[|items0|..];
    if |b.addedNames| > 0 {
      w.items, w.nextId := b.items, b.next;
    }
    added, ignored := |b.addedNames|, |b.ignoredNames|;
    addedNames, ignoredNames := b.addedNames, b.ignoredNames;
  }
}
