/** Inventory items and the pure parts of js/modules/itemmanager.js: lookups, the stock
    recalculation from batches (recalculateStockFromBatches), kit availability,
    propagation to kits (updateAffectedKits) and the value of a lost or damaged
    allocation (calculateDebitValue). */
module Items {
  import opened Common
  import opened Batches

  /** Timestamps are milliseconds since 1970-01-01 (UTC). */
  const MsPerDay: int := 86400000

  /** The calendar day of a timestamp, as toISOString().split('T')[0] gives it. */
  function DayOf(timestamp: int): int
  {
    timestamp / MsPerDay
  }

  datatype KitComponent = KitComponent(id: string, quantity: int)

  /** An open loan: to a collaborator, or (serviceOrderId present) to a service order. */
  datatype Allocation = Allocation(
    id: string,
    quantity: int,
    collaboratorId: string,
    date: int,
    location: string,
    serviceOrderId: Option<string>)

  datatype HistoryKind = Entry | Exit | Loan | Return | Loss | Discard | Adjustment

  datatype HistoryRecord = HistoryRecord(kind: HistoryKind, quantity: int, timestamp: int, responsible: string)

  datatype Location = Location(aisle: string, shelf: string, box: string)

  datatype Item = Item(
    id: string,
    name: string,
    itemType: string,
    barcode: string,
    empresa: string,
    price: real,
    shelfLifeDays: int,
    minStock: int,
    maxStock: int,
    isReturnable: bool,
    status: string,
    location: Option<Location>,
    totalStock: int,
    currentStock: int,
    onLoanCount: int,
    batches: seq<Batch>,
    allocations: seq<Allocation>,
    kitItems: seq<KitComponent>,
    history: seq<HistoryRecord>)

  const KitType: string := "Kit"

  predicate IsKit(it: Item)
  {
    it.itemType == KitType
  }

  // ---- lookups ----

  function ItemIndex(items: seq<Item>, id: string): (r: Option<nat>)
    ensures r.Some? ==> r.value < |items| && items[r.value].id == id
    ensures r.Some? ==> forall k :: 0 <= k < r.value ==> items[k].id != id
    ensures r.None? ==> forall k :: 0 <= k < |items| ==> items[k].id != id
  {
    if items == [] then None
    else if items[0].id == id then Some(0)
    else match ItemIndex(items[1..], id)
      case None => None
      case Some(k) => Some(k + 1)
  }

  function AllocationIndex(allocs: seq<Allocation>, id: string): (r: Option<nat>)
    ensures r.Some? ==> r.value < |allocs| && allocs[r.value].id == id
    ensures r.None? ==> forall k :: 0 <= k < |allocs| ==> allocs[k].id != id
  {
    FirstIndex(allocs, (a: Allocation) => a.id == id)
  }

  function BatchIndex(bs: seq<Batch>, id: string): (r: Option<nat>)
    ensures r.Some? ==> r.value < |bs| && bs[r.value].id == id
    ensures r.None? ==> forall k :: 0 <= k < |bs| ==> bs[k].id != id
  {
    FirstIndex(bs, (b: Batch) => b.id == id)
  }

  /** Lists with the same ids in the same positions resolve every id to the same position. */
  lemma SameIdsSameIndex(a: seq<Item>, b: seq<Item>, id: string)
    requires |a| == |b| && forall k :: 0 <= k < |a| ==> a[k].id == b[k].id
    ensures ItemIndex(a, id) == ItemIndex(b, id)
  {
  }

  // ---- stock recalculation ----

  predicate HasPositiveRequirement(comps: seq<KitComponent>)
  {
    exists k :: 0 <= k < |comps| && comps[k].quantity > 0
  }

  /** Recalculation is defined for a kit unless every one of its requirements is zero or
      negative (the source then computes an Infinity stock, which the model does not cover). */
  predicate KitReady(it: Item)
  {
    !IsKit(it) || it.kitItems == [] || HasPositiveRequirement(it.kitItems)
  }

  predicate AllKitsReady(items: seq<Item>)
  {
    forall k :: 0 <= k < |items| ==> KitReady(items[k])
  }

  /** A component names an item of the list (an empty id counts as missing). */
  predicate Resolves(items: seq<Item>, c: KitComponent)
  {
    c.id != "" && ItemIndex(items, c.id).Some?
  }

  predicate AllResolve(items: seq<Item>, comps: seq<KitComponent>)
  {
    forall k :: 0 <= k < |comps| ==> Resolves(items, comps[k])
  }

  function StockOf(items: seq<Item>, id: string): int
    requires ItemIndex(items, id).Some?
  {
    items[ItemIndex(items, id).value].currentStock
  }

  datatype Bound = Finite(n: int) | Unbounded

  function MinBound(a: Bound, b: Bound): (r: Bound)
    ensures r == a || r == b
    ensures r.Finite? <==> a.Finite? || b.Finite?
    ensures r.Finite? && a.Finite? ==> r.n <= a.n
    ensures r.Finite? && b.Finite? ==> r.n <= b.n
  {
    match (a, b)
    case (Unbounded, _) => b
    case (_, Unbounded) => a
    case (Finite(x), Finite(y)) => if x <= y then a else b
  }

  /** How many kits one component allows; a non-positive requirement does not limit. */
  function Capacity(items: seq<Item>, c: KitComponent): Bound
    requires Resolves(items, c)
  {
    if c.quantity <= 0 then Unbounded else Finite(StockOf(items, c.id) / c.quantity)
  }

  /** Math.min over the components' capacities. */
  function KitPotential(items: seq<Item>, comps: seq<KitComponent>): Bound
    requires AllResolve(items, comps)
  {
    if comps == [] then Unbounded
    else MinBound(Capacity(items, comps[0]), KitPotential(items, comps[1..]))
  }

  lemma HasPositiveCons(comps: seq<KitComponent>)
    requires comps != []
    ensures HasPositiveRequirement(comps) <==> comps[0].quantity > 0 || HasPositiveRequirement(comps[1..])
  {
    if HasPositiveRequirement(comps) && comps[0].quantity <= 0 {
      var k :| 0 <= k < |comps| && comps[k].quantity > 0;
      assert comps[1..][k - 1] == comps[k];
    }
    if HasPositiveRequirement(comps[1..]) {
      var k :| 0 <= k < |comps[1..]| && comps[1..][k].quantity > 0;
      assert comps[k + 1] == comps[1..][k];
    }
  }

  /** The minimum is finite once one requirement is positive, is at most each component's
      capacity, and equals the capacity of some component with a positive requirement. */
  lemma {:induction false} KitPotentialIsMinimum(items: seq<Item>, comps: seq<KitComponent>)
    requires AllResolve(items, comps)
    ensures KitPotential(items, comps).Finite? <==> HasPositiveRequirement(comps)
    ensures KitPotential(items, comps).Finite? ==>
      (forall k :: 0 <= k < |comps| && comps[k].quantity > 0 ==>
         KitPotential(items, comps).n <= StockOf(items, comps[k].id) / comps[k].quantity) &&
      (exists k :: 0 <= k < |comps| && comps[k].quantity > 0 &&
         KitPotential(items, comps).n == StockOf(items, comps[k].id) / comps[k].quantity)
  {
    if comps != [] {
      var tail := comps[1..];
      KitPotentialIsMinimum(items, tail);
      var p := KitPotential(items, comps);
      var pt := KitPotential(items, tail);
      var c0 := Capacity(items, comps[0]);
      HasPositiveCons(comps);
      if p.Finite? {
        forall k | 0 <= k < |comps| && comps[k].quantity > 0
          ensures p.n <= StockOf(items, comps[k].id) / comps[k].quantity
        {
          if k > 0 {
            assert comps[k] == tail[k - 1];
          }
        }
        if p == c0 {
          assert comps[0].quantity > 0;
        } else {
          var k :| 0 <= k < |tail| && tail[k].quantity > 0 && pt.n == StockOf(items, tail[k].id) / tail[k].quantity;
          assert comps[k + 1] == tail[k];
        }
      }
    }
  }

  /** recalculateStockFromBatches. A kit with no components, or with one that does not
      resolve, has no stock; otherwise its available stock is the number of kits its
      components allow. A simple item's total is the sum of its batches, and what is on
      loan is not available. The available stock is never negative. */
  function Recalc(it: Item, items: seq<Item>): (r: Item)
    requires KitReady(it)
    ensures r == it.(totalStock := r.totalStock, currentStock := r.currentStock)
    ensures r.currentStock >= 0
  {
    var raw :=
      if IsKit(it) then
        if it.kitItems == [] || !AllResolve(items, it.kitItems) then it.(totalStock := 0, currentStock := 0)
        else
          KitPotentialIsMinimum(items, it.kitItems);
          var p := KitPotential(items, it.kitItems).n;
          it.(totalStock := p + it.onLoanCount, currentStock := p)
      else
        var t := Total(it.batches);
        it.(totalStock := t, currentStock := t - it.onLoanCount);
    raw.(currentStock := Max0(raw.currentStock))
  }

  lemma FloorDivBounds(s: int, q: int)
    requires q > 0
    ensures (s / q) * q <= s < (s / q + 1) * q
  {
  }

  /** n = max(0, p) kits with p <= floor(s / q) need at most max(0, s) units. */
  lemma AssembleWithin(p: int, s: int, q: int, n: int)
    requires q > 0 && p <= s / q && n == Max0(p)
    ensures n * q <= Max0(s)
  {
    FloorDivBounds(s, q);
    if p > 0 {
      assert p * q <= (s / q) * q;
    }
  }

  /** max(0, floor(s / q)) + 1 kits need more than s units. */
  lemma AssembleTight(s: int, q: int, n: int)
    requires q > 0 && n == Max0(s / q)
    ensures (n + 1) * q > s
  {
    FloorDivBounds(s, q);
    if s / q < 0 {
      assert (s / q + 1) * q <= q;
    }
  }

  lemma RecalcKit(it: Item, items: seq<Item>)
    requires IsKit(it) && AllResolve(items, it.kitItems) && HasPositiveRequirement(it.kitItems)
    ensures KitPotential(items, it.kitItems).Finite?
    ensures Recalc(it, items).currentStock == Max0(KitPotential(items, it.kitItems).n)
    ensures Recalc(it, items).totalStock == KitPotential(items, it.kitItems).n + it.onLoanCount
  {
    KitPotentialIsMinimum(items, it.kitItems);
  }

  /** max(0, potential) kits are the most the components can assemble. */
  lemma {:induction false} PotentialIsAssemblable(items: seq<Item>, comps: seq<KitComponent>, n: int)
    requires AllResolve(items, comps) && HasPositiveRequirement(comps)
    requires KitPotential(items, comps).Finite? && n == Max0(KitPotential(items, comps).n)
    ensures forall k :: 0 <= k < |comps| && comps[k].quantity > 0 ==>
              n * comps[k].quantity <= Max0(StockOf(items, comps[k].id))
    ensures exists k :: 0 <= k < |comps| && comps[k].quantity > 0 &&
              (n + 1) * comps[k].quantity > StockOf(items, comps[k].id)
  {
    KitPotentialIsMinimum(items, comps);
    var p := KitPotential(items, comps).n;
    forall k | 0 <= k < |comps| && comps[k].quantity > 0
      ensures n * comps[k].quantity <= Max0(StockOf(items, comps[k].id))
    {
      AssembleWithin(p, StockOf(items, comps[k].id), comps[k].quantity, n);
    }
    var k :| 0 <= k < |comps| && comps[k].quantity > 0 && p == StockOf(items, comps[k].id) / comps[k].quantity;
    AssembleTight(StockOf(items, comps[k].id), comps[k].quantity, n);
  }

  /** A kit's available stock is the largest number n of kits that the available stock of
      its components can assemble: every component with a positive requirement holds at
      least n times that requirement, and n + 1 kits would exceed one of them. */
  lemma KitStockIsAssemblable(it: Item, items: seq<Item>)
    requires IsKit(it) && AllResolve(items, it.kitItems) && HasPositiveRequirement(it.kitItems)
    ensures var n := Recalc(it, items).currentStock;
      (forall k :: 0 <= k < |it.kitItems| && it.kitItems[k].quantity > 0 ==>
         n * it.kitItems[k].quantity <= Max0(StockOf(items, it.kitItems[k].id))) &&
      (exists k :: 0 <= k < |it.kitItems| && it.kitItems[k].quantity > 0 &&
         (n + 1) * it.kitItems[k].quantity > StockOf(items, it.kitItems[k].id))
  {
    RecalcKit(it, items);
    PotentialIsAssemblable(items, it.kitItems, Recalc(it, items).currentStock);
  }

  /** Recalculating twice is recalculating once, and a simple item's stock obeys
      currentStock == max(0, totalStock - onLoanCount) with totalStock the sum of its batches. */
  lemma RecalcStable(it: Item, items: seq<Item>)
    requires KitReady(it)
    ensures Recalc(Recalc(it, items), items) == Recalc(it, items)
    ensures !IsKit(it) ==>
      Recalc(it, items).totalStock == Total(it.batches) &&
      Recalc(it, items).currentStock == Max0(Recalc(it, items).totalStock - it.onLoanCount)
  {
  }

  // ---- propagation to kits ----

  /** The kit lists the component among its kitItems. */
  predicate References(it: Item, componentId: string)
  {
    IsKit(it) && exists k :: 0 <= k < |it.kitItems| && it.kitItems[k].id == componentId
  }

  /** Two lists that differ at most in the stock figures of some items. */
  predicate SameButStock(a: seq<Item>, b: seq<Item>)
  {
    |a| == |b| && forall k :: 0 <= k < |a| ==> b[k] == a[k].(totalStock := b[k].totalStock, currentStock := b[k].currentStock)
  }

  /** The forEach over the referencing kits, from position i on. */
  function PropagateFrom(items: seq<Item>, componentId: string, i: nat): (r: seq<Item>)
    requires i <= |items| && AllKitsReady(items)
    ensures SameButStock(items, r) && AllKitsReady(r)
    ensures forall k :: 0 <= k < |items| && (k < i || !References(items[k], componentId)) ==> r[k] == items[k]
    decreases |items| - i
  {
    if i == |items| then items
    else if References(items[i], componentId) then
      PropagateFrom(items[i := Recalc(items[i], items)], componentId, i + 1)
    else PropagateFrom(items, componentId, i + 1)
  }

  /** updateAffectedKits: recalculates, in list order, every kit that lists the component.
      Only those kits change, and only in their stock figures. */
  function UpdateAffectedKits(items: seq<Item>, componentId: string): (r: seq<Item>)
    requires AllKitsReady(items)
    ensures SameButStock(items, r) && AllKitsReady(r)
    ensures forall k :: 0 <= k < |items| && !References(items[k], componentId) ==> r[k] == items[k]
  {
    PropagateFrom(items, componentId, 0)
  }

  /** No kit has a component that is itself a kit (what addItemToKit and
      updateKitComposition enforce when components are added). */
  predicate ComponentsAreSimple(items: seq<Item>)
  {
    forall k, j ::
      0 <= k < |items| && IsKit(items[k]) && 0 <= j < |items[k].kitItems| &&
      ItemIndex(items, items[k].kitItems[j].id).Some?
      ==> !IsKit(items[ItemIndex(items, items[k].kitItems[j].id).value])
  }

  /** Simple items keep their place and value; only kits' stock figures differ. */
  predicate SimpleAgree(a: seq<Item>, b: seq<Item>)
  {
    SameButStock(a, b) && forall k :: 0 <= k < |a| && !IsKit(a[k]) ==> b[k] == a[k]
  }

  lemma {:induction false} KitPotentialAgrees(a: seq<Item>, b: seq<Item>, comps: seq<KitComponent>)
    requires SimpleAgree(a, b) && AllResolve(a, comps)
    requires forall j :: 0 <= j < |comps| ==> !IsKit(a[ItemIndex(a, comps[j].id).value])
    ensures AllResolve(b, comps) && KitPotential(a, comps) == KitPotential(b, comps)
  {
    forall j | 0 <= j < |comps| ensures ItemIndex(a, comps[j].id) == ItemIndex(b, comps[j].id) {
      SameIdsSameIndex(a, b, comps[j].id);
    }
    if comps != [] {
      KitPotentialAgrees(a, b, comps[1..]);
    }
  }

  /** A kit whose components are simple items is recalculated the same way against two
      lists that agree on every simple item. */
  lemma RecalcAgrees(it: Item, a: seq<Item>, b: seq<Item>)
    requires KitReady(it) && SimpleAgree(a, b)
    requires IsKit(it) ==> forall j :: 0 <= j < |it.kitItems| && ItemIndex(a, it.kitItems[j].id).Some? ==>
               !IsKit(a[ItemIndex(a, it.kitItems[j].id).value])
    ensures Recalc(it, a) == Recalc(it, b)
  {
    if IsKit(it) {
      forall j | 0 <= j < |it.kitItems| ensures ItemIndex(a, it.kitItems[j].id) == ItemIndex(b, it.kitItems[j].id) {
        SameIdsSameIndex(a, b, it.kitItems[j].id);
      }
      if AllResolve(a, it.kitItems) {
        KitPotentialAgrees(a, b, it.kitItems);
      }
    }
  }

  lemma KitUpdateAgrees(orig: seq<Item>, cur: seq<Item>, i: nat, it: Item)
    requires SimpleAgree(orig, cur) && i < |cur| && IsKit(cur[i])
    requires it == cur[i].(totalStock := it.totalStock, currentStock := it.currentStock)
    ensures SimpleAgree(orig, cur[i := it])
  {
  }

  lemma {:induction false} PropagateFromRecalcs(orig: seq<Item>, cur: seq<Item>, componentId: string, i: nat)
    requires i <= |cur| && AllKitsReady(orig) && AllKitsReady(cur) && ComponentsAreSimple(orig)
    requires SimpleAgree(orig, cur)
    requires forall k :: i <= k < |cur| ==> cur[k] == orig[k]
    ensures forall k :: i <= k < |cur| && References(orig[k], componentId) ==>
      PropagateFrom(cur, componentId, i)[k] == Recalc(orig[k], orig)
    decreases |cur| - i
  {
    if i < |cur| {
      if References(cur[i], componentId) {
        var next := cur[i := Recalc(cur[i], cur)];
        RecalcAgrees(orig[i], orig, cur);
        KitUpdateAgrees(orig, cur, i, Recalc(cur[i], cur));
        PropagateFromRecalcs(orig, next, componentId, i + 1);
      } else {
        PropagateFromRecalcs(orig, cur, componentId, i + 1);
      }
    }
  }

  /** When no kit is built from kits, every kit that lists the component ends up with the
      stock a fresh recalculation against the input list gives it. */
  lemma UpdateAffectedKitsRecalcs(items: seq<Item>, componentId: string)
    requires AllKitsReady(items) && ComponentsAreSimple(items)
    ensures forall k :: 0 <= k < |items| && References(items[k], componentId) ==>
      UpdateAffectedKits(items, componentId)[k] == Recalc(items[k], items)
  {
    PropagateFromRecalcs(items, items, componentId, 0);
  }

  // ---- history ----

  /** history.unshift(record) followed by history.length = limit when it is longer. */
  function Prepend(h: seq<HistoryRecord>, rec: HistoryRecord, limit: nat): (r: seq<HistoryRecord>)
    ensures |r| == if |h| + 1 > limit then limit else |h| + 1
    ensures |r| > 0 ==> r[0] == rec
    ensures forall k :: 1 <= k < |r| ==> r[k] == h[k - 1]
  {
    var full := [rec] + h;
    if |full| > limit then full[..limit] else full
  }

  /** The earliest timestamp of an entry record, when there is one. */
  function EarliestEntry(h: seq<HistoryRecord>): (r: Option<int>)
    ensures r.None? <==> forall k :: 0 <= k < |h| ==> h[k].kind != Entry
    ensures r.Some? ==> (exists k :: 0 <= k < |h| && h[k].kind == Entry && h[k].timestamp == r.value) &&
                        (forall k :: 0 <= k < |h| && h[k].kind == Entry ==> r.value <= h[k].timestamp)
  {
    if h == [] then None
    else
      var rest := EarliestEntry(h[1..]);
      assert forall k :: 1 <= k < |h| ==> h[k] == h[1..][k - 1];
      if h[0].kind != Entry then rest
      else match rest
        case None => Some(h[0].timestamp)
        case Some(t) => if h[0].timestamp <= t then Some(h[0].timestamp) else Some(t)
  }

  // ---- value of a lost allocation ----

  /** Σ price × required quantity over the components that resolve. */
  function KitUnitCost(items: seq<Item>, comps: seq<KitComponent>): real
  {
    if comps == [] then 0.0
    else
      var rest := KitUnitCost(items, comps[1..]);
      match ItemIndex(items, comps[0].id)
      case None => rest
      case Some(p) => Cost(comps[0].quantity, items[p].price) + rest
  }

  /** Math.ceil(x / d) for d > 0. */
  function CeilDiv(x: int, d: int): (r: int)
    requires d > 0
    ensures (r - 1) * d < x <= r * d
  {
    -((-x) / d)
  }

  function MinReal(a: real, b: real): real
  {
    if a <= b then a else b
  }

  function MaxReal0(x: real): (r: real)
    ensures r >= 0.0 && r >= x
  {
    if x > 0.0 then x else 0.0
  }

  /** calculateDebitValue. A kit costs its components' prices times the number lent.
      Otherwise the policy 'replacement', or a non-returnable item, charges the full price;
      'depreciated' with a positive shelf life charges the part of the price not yet used up
      (days since the allocation, rounded up, over the shelf life, capped at 1); any other
      case charges the full price. The value is never negative. */
  function DebitValue(it: Item, alloc: Allocation, items: seq<Item>, policy: string, now: int): (r: real)
    ensures r >= 0.0
  {
    MaxReal0(RawDebitValue(it, alloc, items, policy, now))
  }

  function DaysUsed(alloc: Allocation, now: int): nat
  {
    Max0(CeilDiv(now - alloc.date, MsPerDay))
  }

  function DepreciationFactor(shelfLifeDays: int, daysUsed: nat): (f: real)
    requires shelfLifeDays > 0
    ensures 0.0 <= f <= 1.0
  {
    MinReal(daysUsed as real / shelfLifeDays as real, 1.0)
  }

  function RawDebitValue(it: Item, alloc: Allocation, items: seq<Item>, policy: string, now: int): real
  {
    if IsKit(it) then Cost(alloc.quantity, KitUnitCost(items, it.kitItems))
    else if policy == "replacement" || !it.isReturnable then Cost(alloc.quantity, it.price)
    else if policy == "depreciated" && it.shelfLifeDays > 0 then
      DepreciatedCharge(alloc.quantity, it.price, DepreciationFactor(it.shelfLifeDays, DaysUsed(alloc, now)))
    else Cost(alloc.quantity, it.price)
  }

  /** q units at the part of the price that the factor f has not used up. */
  function DepreciatedCharge(q: int, price: real, f: real): real
  {
    Cost(q, price * (1.0 - f))
  }

  lemma KitRawDebit(it: Item, alloc: Allocation, items: seq<Item>, policy: string, now: int)
    requires IsKit(it)
    ensures RawDebitValue(it, alloc, items, policy, now) == Cost(alloc.quantity, KitUnitCost(items, it.kitItems))
  {
  }

  /** The reduce over a kit's components: each component found in the list adds its price
      times its required quantity to the running total; one not found adds nothing. */
  function ComponentsReduce(items: seq<Item>, comps: seq<KitComponent>, total: real): real
    decreases |comps|
  {
    if comps == [] then total
    else
      match ItemIndex(items, comps[0].id)
      case None => ComponentsReduce(items, comps[1..], total)
      case Some(p) => ComponentsReduce(items, comps[1..], total + items[p].price * (comps[0].quantity as real))
  }

  lemma ReduceFoundStep(items: seq<Item>, comps: seq<KitComponent>, total: real, p: nat)
    requires comps != [] && ItemIndex(items, comps[0].id) == Some(p)
    ensures ComponentsReduce(items, comps, total) ==
              ComponentsReduce(items, comps[1..], total + items[p].price * (comps[0].quantity as real))
  {
  }

  lemma {:induction false} ReduceIsUnitCost(items: seq<Item>, comps: seq<KitComponent>, total: real)
    ensures ComponentsReduce(items, comps, total) == total + KitUnitCost(items, comps)
    decreases |comps|
  {
    if comps != [] {
      match ItemIndex(items, comps[0].id)
      case None =>
        ReduceIsUnitCost(items, comps[1..], total);
      case Some(p) =>
        var c := items[p].price * (comps[0].quantity as real);
        ReduceFoundStep(items, comps, total, p);
        ReduceIsUnitCost(items, comps[1..], total + c);
        CostIsProduct(comps[0].quantity, items[p].price);
        assert c == (comps[0].quantity as real) * items[p].price;
    }
  }

  /** A kit is charged the reduce of its components' prices, started at zero, times the
      number lent, floored at zero, whatever the debit policy and the time. */
  lemma KitDebitValue(it: Item, alloc: Allocation, items: seq<Item>, policy: string, now: int)
    requires IsKit(it)
    ensures DebitValue(it, alloc, items, policy, now) ==
              MaxReal0(ComponentsReduce(items, it.kitItems, 0.0) * (alloc.quantity as real))
    ensures forall p2, t2 :: DebitValue(it, alloc, items, p2, t2) == DebitValue(it, alloc, items, policy, now)
  {
    var u := KitUnitCost(items, it.kitItems);
    ReduceIsUnitCost(items, it.kitItems, 0.0);
    CostIsProduct(alloc.quantity, u);
    assert ComponentsReduce(items, it.kitItems, 0.0) * (alloc.quantity as real) == Cost(alloc.quantity, u);
  }

  /** Under 'depreciated', a returnable simple item with a shelf life is charged its
      depreciated charge. */
  lemma DepreciatedCharged(it: Item, alloc: Allocation, items: seq<Item>, now: int)
    requires !IsKit(it) && it.isReturnable && it.shelfLifeDays > 0
    ensures DebitValue(it, alloc, items, "depreciated", now) ==
      MaxReal0(DepreciatedCharge(alloc.quantity, it.price, DepreciationFactor(it.shelfLifeDays, DaysUsed(alloc, now))))
  {
    assert "depreciated"[0] != "replacement"[0];
  }

  lemma DepreciatedValue(it: Item, alloc: Allocation, items: seq<Item>, now: int)
    requires !IsKit(it) && it.isReturnable && it.shelfLifeDays > 0
    ensures DebitValue(it, alloc, items, "depreciated", now) ==
      MaxReal0((alloc.quantity as real) * (it.price * (1.0 - DepreciationFactor(it.shelfLifeDays, DaysUsed(alloc, now)))))
  {
    DepreciatedCharged(it, alloc, items, now);
    ChargeIsProduct(alloc.quantity, it.price, DepreciationFactor(it.shelfLifeDays, DaysUsed(alloc, now)));
  }

  lemma ChargeIsProduct(q: int, price: real, f: real)
    ensures DepreciatedCharge(q, price, f) == (q as real) * (price * (1.0 - f))
  {
    var u := price * (1.0 - f);
    assert DepreciatedCharge(q, price, f) == Cost(q, u);
    CostIsProduct(q, u);
    assert Cost(q, u) == (q as real) * u;
  }

  lemma FactorMonotone(shelf: int, d1: nat, d2: nat)
    requires shelf > 0 && d1 <= d2
    ensures DepreciationFactor(shelf, d1) <= DepreciationFactor(shelf, d2)
  {
    assert d1 as real / shelf as real <= d2 as real / shelf as real;
  }

  /** A larger factor never charges more, and no factor charges more than the full price. */
  lemma ChargeMonotone(q: int, price: real, f1: real, f2: real)
    requires q >= 0 && price >= 0.0 && 0.0 <= f1 <= f2 <= 1.0
    ensures DepreciatedCharge(q, price, f2) <= DepreciatedCharge(q, price, f1) <= Cost(q, price)
    ensures Cost(q, price) >= 0.0
  {
    var a, b := price * (1.0 - f2), price * (1.0 - f1);
    assert a <= b <= price;
    CostIsProduct(q, a);
    CostIsProduct(q, b);
    CostIsProduct(q, price);
    ProductMonotone(q as real, a, b);
    ProductMonotone(q as real, b, price);
    ProductMonotone(q as real, 0.0, price);
  }

  /** For a returnable simple item under 'depreciated', with non-negative price and
      quantity, the debit lies between zero and the full replacement price, and it does not
      increase as time passes; 'replacement' charges the full price. */
  lemma DepreciatedDebitBounds(it: Item, alloc: Allocation, items: seq<Item>, now: int, later: int)
    requires !IsKit(it) && it.isReturnable && it.shelfLifeDays > 0
    requires it.price >= 0.0 && alloc.quantity >= 0 && now <= later
    ensures DebitValue(it, alloc, items, "depreciated", now) <= (alloc.quantity as real) * it.price
    ensures DebitValue(it, alloc, items, "depreciated", later) <= DebitValue(it, alloc, items, "depreciated", now)
    ensures DebitValue(it, alloc, items, "replacement", now) == (alloc.quantity as real) * it.price
  {
    var f1 := DepreciationFactor(it.shelfLifeDays, DaysUsed(alloc, now));
    var f2 := DepreciationFactor(it.shelfLifeDays, DaysUsed(alloc, later));
    DaysUsedMonotone(alloc, now, later);
    FactorMonotone(it.shelfLifeDays, DaysUsed(alloc, now), DaysUsed(alloc, later));
    DepreciatedCharged(it, alloc, items, now);
    DepreciatedCharged(it, alloc, items, later);
    ChargeMonotone(alloc.quantity, it.price, f1, f2);
    CostIsProduct(alloc.quantity, it.price);
  }

  lemma ProductMonotone(q: real, a: real, b: real)
    requires q >= 0.0 && a <= b
    ensures q * a <= q * b
  {
  }

  lemma DaysUsedMonotone(alloc: Allocation, now: int, later: int)
    requires now <= later
    ensures DaysUsed(alloc, now) <= DaysUsed(alloc, later)
  {
    var x, y := now - alloc.date, later - alloc.date;
    var a, b := CeilDiv(x, MsPerDay), CeilDiv(y, MsPerDay);
  }

  /** A worked case: price 100, shelf life 100 days, one unit lent 50 days ago is charged
      50; lent 100 days ago or more it is charged nothing. */
  lemma DepreciationExample(it: Item, alloc: Allocation, items: seq<Item>)
    requires !IsKit(it) && it.isReturnable && it.shelfLifeDays == 100 && it.price == 100.0
    requires alloc.quantity == 1 && alloc.date == 0
    ensures DebitValue(it, alloc, items, "depreciated", 50 * MsPerDay) == 50.0
    ensures forall later :: later >= 100 * MsPerDay ==> DebitValue(it, alloc, items, "depreciated", later) == 0.0
  {
    assert CeilDiv(50 * MsPerDay, MsPerDay) == 50;
    forall later | later >= 100 * MsPerDay
      ensures DebitValue(it, alloc, items, "depreciated", later) == 0.0
    {
      var d := CeilDiv(later, MsPerDay);
      assert (d - 1) * MsPerDay < later;
      assert later <= d * MsPerDay;
      assert d >= 100;
      assert DaysUsed(alloc, later) >= 100;
    }
  }
}
