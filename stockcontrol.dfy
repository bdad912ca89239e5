/** js/modules/stockcontrol.js: loans and exits, returns (with or without lost kit
    components), losses, discards, stock counts and entries. Every operation works on the
    item list (and the debits and service orders) of the current state; each is a method
    with its loops, proved equal to a function of the state before it, and the properties
    the operations promise are lemmas about those functions. */
module StockControl {
  import opened Common
  import opened Config
  import opened Batches
  import opened Items
  import opened Store
  import opened DebitManager
  import opened ServiceOrderManager

  // ---- what the operations keep ----

  /** The fields no stock operation changes. */
  predicate SameEntry(x: Item, y: Item)
  {
    y.id == x.id && y.name == x.name && y.itemType == x.itemType && y.price == x.price &&
    y.shelfLifeDays == x.shelfLifeDays && y.isReturnable == x.isReturnable && y.kitItems == x.kitItems
  }

  predicate SameCatalog(a: seq<Item>, b: seq<Item>)
  {
    |a| == |b| && forall k :: 0 <= k < |a| ==> SameEntry(a[k], b[k])
  }

  /** Open loans: counts and allocation lists. */
  predicate SameLoans(a: seq<Item>, b: seq<Item>)
  {
    |a| == |b| && forall k :: 0 <= k < |a| ==> b[k].onLoanCount == a[k].onLoanCount && b[k].allocations == a[k].allocations
  }

  lemma CatalogIndex(a: seq<Item>, b: seq<Item>, id: string)
    requires SameCatalog(a, b)
    ensures ItemIndex(a, id) == ItemIndex(b, id)
  {
    SameIdsSameIndex(a, b, id);
  }

  // ---- one item at a time ----

  function Truncate(h: seq<HistoryRecord>, limit: nat): (r: seq<HistoryRecord>)
    ensures |r| <= limit && |r| <= |h| && r == h[..|r|]
    ensures |h| <= limit ==> r == h
  {
    if |h| > limit then h[..limit] else h
  }

  /** distributeStockFromBatches on the item at p. */
  function DeductAt(items: seq<Item>, p: nat, q: int): (r: seq<Item>)
    requires p < |items|
    ensures SameCatalog(items, r)
    ensures AllKitsReady(items) ==> AllKitsReady(r)
    ensures SameLoans(items, r)
  {
    items[p := items[p].(batches := FefoDeduct(items[p].batches, q, items[p].shelfLifeDays))]
  }

  /** recalculateStockFromBatches on the item at p. */
  function RecalcAt(items: seq<Item>, p: nat): (r: seq<Item>)
    requires p < |items| && AllKitsReady(items)
    ensures SameCatalog(items, r) && AllKitsReady(r) && SameLoans(items, r)
  {
    items[p := Recalc(items[p], items)]
  }

  /** Recalculation of the item at p followed by updateAffectedKits for it. */
  function RefreshAt(items: seq<Item>, p: nat): (r: seq<Item>)
    requires p < |items| && AllKitsReady(items)
    ensures SameCatalog(items, r) && AllKitsReady(r) && SameLoans(items, r)
    ensures forall k :: 0 <= k < |items| ==> r[k].batches == items[k].batches && r[k].history == items[k].history
  {
    UpdateAffectedKits(RecalcAt(items, p), items[p].id)
  }

  /** item.history.unshift(rec) */
  function UnshiftAt(items: seq<Item>, p: nat, rec: HistoryRecord): (r: seq<Item>)
    requires p < |items|
    ensures SameCatalog(items, r)
    ensures AllKitsReady(items) ==> AllKitsReady(r)
    ensures SameLoans(items, r)
  {
    items[p := items[p].(history := [rec] + items[p].history)]
  }

  /** item.history.length = limit, when it is longer. */
  function TruncateAt(items: seq<Item>, p: nat, limit: nat): (r: seq<Item>)
    requires p < |items|
    ensures SameCatalog(items, r)
    ensures AllKitsReady(items) ==> AllKitsReady(r)
    ensures SameLoans(items, r)
  {
    items[p := items[p].(history := Truncate(items[p].history, limit))]
  }

  /** A record at the head of the history of the item at p, which is then cut to the limit. */
  function PrependAt(items: seq<Item>, p: nat, rec: HistoryRecord, limit: nat): (r: seq<Item>)
    requires p < |items|
    ensures SameCatalog(items, r) && SameLoans(items, r)
    ensures AllKitsReady(items) ==> AllKitsReady(r)
    ensures |r| == |items| && forall k :: 0 <= k < |items| && k != p ==> r[k] == items[k]
    ensures r[p] == items[p].(history := Prepend(items[p].history, rec, limit))
  {
    items[p := items[p].(history := Prepend(items[p].history, rec, limit))]
  }

  /** item.batches.push(b) */
  function PushBatchAt(items: seq<Item>, p: nat, b: Batch): (r: seq<Item>)
    requires p < |items|
    ensures SameCatalog(items, r)
    ensures AllKitsReady(items) ==> AllKitsReady(r)
    ensures SameLoans(items, r)
  {
    items[p := items[p].(batches := items[p].batches + [b])]
  }

  /** The loop of distributeStockFromBatches, run on the item at p. */
  method DeductIn(items: seq<Item>, p: nat, q: int) returns (r: seq<Item>)
    requires p < |items|
    ensures r == DeductAt(items, p, q)
  {
    var bs := Distribute(items[p].batches, q, items[p].shelfLifeDays);
    r := items[p := items[p].(batches := bs)];
  }

  // ---- passes over a kit's components ----

  /** What a pass does to each component the kit lists, as the source's loops do:
      Lend (a kit loan), Take (a kit in a multiple checkout), Lose (a lost kit). */
  datatype Action =
    | Lend(mult: int)
    | Take(mult: int)
    | Lose(mult: int, responsible: string, now: int, limit: nat)

  /** The step on the component found at j. Each action first deducts, first-expiring
      first, the required quantity times the number of kits. */
  function ApplyAt(items: seq<Item>, j: nat, c: KitComponent, act: Action): (r: seq<Item>)
    requires j < |items| && AllKitsReady(items)
    ensures SameCatalog(items, r) && AllKitsReady(r) && SameLoans(items, r)
  {
    var d := DeductAt(items, j, c.quantity * act.mult);
    match act
    case Lend(_) => UpdateAffectedKits(RecalcAt(d, j), c.id)
    case Take(_) => d
    case Lose(mult, responsible, now, limit) =>
      var h := PrependAt(d, j, HistoryRecord(Loss, c.quantity * mult, now, responsible), limit);
      UpdateAffectedKits(RecalcAt(h, j), c.id)
  }

  /** A component that does not resolve is skipped. */
  function Step(items: seq<Item>, c: KitComponent, act: Action): (r: seq<Item>)
    requires AllKitsReady(items)
    ensures SameCatalog(items, r) && AllKitsReady(r) && SameLoans(items, r)
  {
    match ItemIndex(items, c.id)
    case None => items
    case Some(j) => ApplyAt(items, j, c, act)
  }

  /** The pass over the components in list order. */
  function Pass(items: seq<Item>, comps: seq<KitComponent>, act: Action): (r: seq<Item>)
    requires AllKitsReady(items)
    ensures SameCatalog(items, r) && AllKitsReady(r) && SameLoans(items, r)
    decreases |comps|
  {
    if comps == [] then items
    else Step(Pass(items, comps[..|comps| - 1], act), comps[|comps| - 1], act)
  }

  method PassLoop(items: seq<Item>, comps: seq<KitComponent>, act: Action) returns (r: seq<Item>)
    requires AllKitsReady(items)
    ensures r == Pass(items, comps, act)
  {
    r := items;
    for k := 0 to |comps|
      invariant r == Pass(items, comps[..k], act)
    {
      assert comps[..k + 1][..k] == comps[..k];
      var c := comps[k];
      var found := ItemIndex(r, c.id);
      if found.Some? {
        var j := found.value;
        var d := DeductIn(r, j, c.quantity * act.mult);
        match act {
          case Lend(_) =>
            r := UpdateAffectedKits(RecalcAt(d, j), c.id);
          case Take(_) =>
            r := d;
          case Lose(mult, responsible, now, limit) =>
            var rec := HistoryRecord(Loss, c.quantity * mult, now, responsible);
            d := PrependAt(d, j, rec, limit);
            r := UpdateAffectedKits(RecalcAt(d, j), c.id);
        }
      }
    }
    assert comps[..|comps|] == comps;
  }

  /** Component ids that are pairwise distinct, as addItemToKit keeps them. */
  predicate DistinctIds(comps: seq<KitComponent>)
  {
    forall a, b :: 0 <= a < b < |comps| ==> comps[a].id != comps[b].id
  }

  /** A step leaves the batches of every item other than the one it finds alone. */
  lemma StepFrame(items: seq<Item>, c: KitComponent, act: Action, k: nat)
    requires AllKitsReady(items) && k < |items| && items[k].id != c.id
    ensures Step(items, c, act)[k].batches == items[k].batches
    ensures Step(items, c, act)[k].history == items[k].history
  {
  }

  /** A pass leaves an item none of whose component entries names it alone. */
  lemma {:induction false} PassFrame(items: seq<Item>, comps: seq<KitComponent>, act: Action, k: nat)
    requires AllKitsReady(items) && k < |items|
    requires forall i :: 0 <= i < |comps| ==> comps[i].id != items[k].id
    ensures Pass(items, comps, act)[k].batches == items[k].batches
    ensures Pass(items, comps, act)[k].history == items[k].history
    decreases |comps|
  {
    if comps != [] {
      var init := comps[..|comps| - 1];
      PassFrame(items, init, act, k);
      StepFrame(Pass(items, init, act), comps[|comps| - 1], act, k);
    }
  }

  /** Each component of a kit with distinct component ids that resolves to position j loses,
      first-expiring first, its required quantity times the number of kits. */
  lemma {:induction false} PassDeducts(items: seq<Item>, comps: seq<KitComponent>, act: Action, i: nat, j: nat)
    requires AllKitsReady(items) && DistinctIds(comps) && i < |comps|
    requires ItemIndex(items, comps[i].id) == Some(j)
    ensures Pass(items, comps, act)[j].batches ==
              FefoDeduct(items[j].batches, comps[i].quantity * act.mult, items[j].shelfLifeDays)
    decreases |comps|
  {
    var init := comps[..|comps| - 1];
    var last := comps[|comps| - 1];
    var before := Pass(items, init, act);
    if i < |comps| - 1 {
      PassDeducts(items, init, act, i, j);
      assert before[j].id == comps[i].id;
      StepFrame(before, last, act, j);
    } else {
      PassFrame(items, init, act, j);
      CatalogIndex(items, before, last.id);
    }
  }

  // ---- registerMovement and allocateItemToServiceOrder ----

  /** A loan (the item comes back) rather than an exit: a returnable type, or a kit. */
  predicate IsLoanItem(settings: map<string, Value>, it: Item)
  {
    it.itemType in ReturnableTypes(settings) || IsKit(it)
  }

  /** The loan part of a movement: the count on loan rises by q, the allocation is
      recorded and a loan record heads the history (uncut). */
  function LoanAt(items: seq<Item>, p: nat, q: int, alloc: Allocation, responsible: string, now: int): (r: seq<Item>)
    requires p < |items|
    ensures SameCatalog(items, r) && (AllKitsReady(items) ==> AllKitsReady(r))
    ensures |r| == |items| && forall k :: 0 <= k < |items| && k != p ==> r[k] == items[k]
    ensures r[p].onLoanCount == items[p].onLoanCount + q && r[p].allocations == items[p].allocations + [alloc]
    ensures r[p].batches == items[p].batches
    ensures r[p].history == [HistoryRecord(Loan, q, now, responsible)] + items[p].history
  {
    var it := items[p];
    items[p := it.(onLoanCount := it.onLoanCount + q, allocations := it.allocations + [alloc],
                   history := [HistoryRecord(Loan, q, now, responsible)] + it.history)]
  }

  /** The exit part of a movement: the batches of the item at p lose q, first-expiring
      first, an exit record heads the history and the kits using the item are refreshed
      (before the item's own figures are, as the source does). */
  function ExitAt(items: seq<Item>, p: nat, q: int, responsible: string, now: int): (r: seq<Item>)
    requires p < |items| && AllKitsReady(items)
    ensures SameCatalog(items, r) && AllKitsReady(r) && SameLoans(items, r)
    ensures !IsKit(items[p]) ==> r[p].batches == FefoDeduct(items[p].batches, q, items[p].shelfLifeDays)
    ensures !IsKit(items[p]) ==> r[p].history == [HistoryRecord(Exit, q, now, responsible)] + items[p].history
    ensures forall k :: 0 <= k < |items| && k != p && !References(items[k], items[p].id) ==> r[k] == items[k]
  {
    UpdateAffectedKits(UnshiftAt(DeductAt(items, p, q), p, HistoryRecord(Exit, q, now, responsible)), items[p].id)
  }

  /** The tail every movement shares: the history of the item at p is cut to the limit and
      its figures are recalculated. */
  function FinishAt(items: seq<Item>, p: nat, limit: nat): (r: seq<Item>)
    requires p < |items| && AllKitsReady(items)
    ensures SameCatalog(items, r) && AllKitsReady(r) && SameLoans(items, r)
    ensures forall k :: 0 <= k < |items| && k != p ==> r[k] == items[k]
    ensures r[p].batches == items[p].batches && r[p].history == Truncate(items[p].history, limit)
    ensures !IsKit(items[p]) ==> r[p].totalStock == Total(items[p].batches)
    ensures !IsKit(items[p]) ==> r[p].currentStock == Max0(Total(items[p].batches) - items[p].onLoanCount)
  {
    RecalcAt(TruncateAt(items, p, limit), p)
  }

  /** The movement of q units of the item at p: a loan, with the kit's components deducted
      when the operation does so, or an exit; then the shared tail. */
  function Movement(items: seq<Item>, p: nat, q: int, alloc: Allocation, responsible: string, now: int,
                    isLoan: bool, withComponents: bool, limit: nat): (r: seq<Item>)
    requires p < |items| && AllKitsReady(items)
    ensures SameCatalog(items, r) && AllKitsReady(r)
  {
    var moved :=
      if !isLoan then ExitAt(items, p, q, responsible, now)
      else if IsKit(items[p]) && withComponents then Pass(LoanAt(items, p, q, alloc, responsible, now), items[p].kitItems, Lend(q))
      else LoanAt(items, p, q, alloc, responsible, now);
    FinishAt(moved, p, limit)
  }

  /** Movement, computed with the loops of the source. */
  method Move(items: seq<Item>, p: nat, q: int, alloc: Allocation, responsible: string, now: int,
              isLoan: bool, withComponents: bool, limit: nat) returns (r: seq<Item>)
    requires p < |items| && AllKitsReady(items)
    ensures r == Movement(items, p, q, alloc, responsible, now, isLoan, withComponents, limit)
  {
    if isLoan {
      r := LoanAt(items, p, q, alloc, responsible, now);
      if IsKit(items[p]) && withComponents {
        r := PassLoop(r, items[p].kitItems, Lend(q));
      }
    } else {
      r := DeductIn(items, p, q);
      r := UnshiftAt(r, p, HistoryRecord(Exit, q, now, responsible));
      r := UpdateAffectedKits(r, items[p].id);
    }
    r := FinishAt(r, p, limit);
  }

  /** The checks of registerMovement: a known item, a positive quantity no larger than the
      available stock, and a known collaborator. */
  predicate MovementAllowed(items: seq<Item>, cs: seq<Collaborator>, itemId: string, q: int, collaboratorId: string)
  {
    ItemIndex(items, itemId).Some? && q > 0 && q <= items[ItemIndex(items, itemId).value].currentStock &&
    CollaboratorIndex(cs, collaboratorId).Some?
  }

  function LoanAllocation(id: string, q: int, collaboratorId: string, now: int, location: string): Allocation
  {
    Allocation(id, q, collaboratorId, now, Trim(location), None)
  }

  /** registerMovement: refused without any change unless the checks pass; a loan mints the
      allocation's id, an exit mints nothing; debits and orders are untouched. */
  function MovementOutcome(l: Ledger, cs: seq<Collaborator>, settings: map<string, Value>, limit: nat,
                           itemId: string, quantity: int, collaboratorId: string, location: string, now: int)
    : (r: Outcome)
    requires AllKitsReady(l.items)
    ensures AllKitsReady(r.ledger.items)
    ensures r.ok <==> MovementAllowed(l.items, cs, itemId, quantity, collaboratorId)
    ensures !r.ok ==> r.ledger == l
    ensures r.ledger.debits == l.debits && r.ledger.orders == l.orders
    ensures r.ok ==> r.ledger.next == l.next + (if IsLoanItem(settings, l.items[ItemIndex(l.items, itemId).value]) then 1 else 0)
  {
    match ItemIndex(l.items, itemId)
    case None => Outcome(false, l)
    case Some(p) =>
      match CollaboratorIndex(cs, collaboratorId)
      case None => Outcome(false, l)
      case Some(c) =>
        if quantity <= 0 || l.items[p].currentStock < quantity then Outcome(false, l)
        else
          var loan := IsLoanItem(settings, l.items[p]);
          var alloc := LoanAllocation(MintId(l.next), quantity, collaboratorId, now, location);
          Outcome(true, l.(items := Movement(l.items, p, quantity, alloc, cs[c].name, now, loan, true, limit),
                           next := if loan then l.next + 1 else l.next))
  }

  /** MovementOutcome once the checks have passed. */
  lemma MovementOutcomeAllowed(l: Ledger, cs: seq<Collaborator>, settings: map<string, Value>, limit: nat,
                               itemId: string, quantity: int, collaboratorId: string, location: string, now: int,
                               p: nat, c: nat)
    requires AllKitsReady(l.items)
    requires ItemIndex(l.items, itemId) == Some(p) && CollaboratorIndex(cs, collaboratorId) == Some(c)
    requires quantity > 0 && l.items[p].currentStock >= quantity
    ensures var loan := IsLoanItem(settings, l.items[p]);
      var alloc := LoanAllocation(MintId(l.next), quantity, collaboratorId, now, location);
      MovementOutcome(l, cs, settings, limit, itemId, quantity, collaboratorId, location, now) ==
      Outcome(true, l.(items := Movement(l.items, p, quantity, alloc, cs[c].name, now, loan, true, limit),
                       next := if loan then l.next + 1 else l.next))
  {
  }

  method RegisterMovementOn(l: Ledger, cs: seq<Collaborator>, settings: map<string, Value>, limit: nat,
                            itemId: string, quantity: int, collaboratorId: string, location: string, now: int)
    returns (r: Outcome)
    requires AllKitsReady(l.items)
    ensures r == MovementOutcome(l, cs, settings, limit, itemId, quantity, collaboratorId, location, now)
  {
    var found := ItemIndex(l.items, itemId);
    var ci := CollaboratorIndex(cs, collaboratorId);
    if found.None? || ci.None? || quantity <= 0 || l.items[found.value].currentStock < quantity {
      return Outcome(false, l);
    }
    var p, c := found.value, ci.value;
    var isLoan := IsLoanItem(settings, l.items[p]);
    var alloc := LoanAllocation(MintId(l.next), quantity, collaboratorId, now, location);
    var moved := Move(l.items, p, quantity, alloc, cs[c].name, now, isLoan, true, limit);
    r := Outcome(true, l.(items := moved, next := if isLoan then l.next + 1 else l.next));
    MovementOutcomeAllowed(l, cs, settings, limit, itemId, quantity, collaboratorId, location, now, p, c);
  }

  method RegisterMovement(w: Warehouse, itemId: string, quantity: int, collaboratorId: string, location: string, now: int)
    returns (ok: bool)
    requires w.Valid()
    modifies w`items, w`debits, w`serviceOrders, w`nextId
    ensures w.Valid()
    ensures var r := MovementOutcome(old(w.LedgerOf()), old(w.collaborators), old(w.Settings()), w.historyLimit,
                                     itemId, quantity, collaboratorId, location, now);
            ok == r.ok && w.LedgerOf() == r.ledger
  {
    var r := RegisterMovementOn(w.LedgerOf(), w.collaborators, w.Settings(), w.historyLimit,
                                itemId, quantity, collaboratorId, location, now);
    w.SaveLedger(r.ledger);
    ok := r.ok;
  }

  /** Lending a simple item raises its count on loan by q and appends exactly the one
      allocation; its batches are untouched and no other item changes. */
  lemma LendSimple(items: seq<Item>, p: nat, q: int, alloc: Allocation, responsible: string, now: int,
                   withComponents: bool, limit: nat)
    requires p < |items| && AllKitsReady(items) && !IsKit(items[p])
    ensures var r := Movement(items, p, q, alloc, responsible, now, true, withComponents, limit);
      var it := items[p];
      r[p].onLoanCount == it.onLoanCount + q &&
      r[p].allocations == it.allocations + [alloc] &&
      r[p].batches == it.batches &&
      r[p].history == Prepend(it.history, HistoryRecord(Loan, q, now, responsible), limit) &&
      r[p].totalStock == Total(it.batches) &&
      r[p].currentStock == Max0(Total(it.batches) - it.onLoanCount - q) &&
      forall k :: 0 <= k < |items| && k != p ==> r[k] == items[k]
  {
  }

  /** An exit of a simple item deducts its batches first-expiring first, by exactly q when
      the batches hold that much; the loans are untouched and only the kits that use the
      item may change besides it. */
  lemma ExitSimple(items: seq<Item>, p: nat, q: int, alloc: Allocation, responsible: string, now: int,
                   withComponents: bool, limit: nat)
    requires p < |items| && AllKitsReady(items) && !IsKit(items[p])
    requires NonNegative(items[p].batches) && 0 <= q
    ensures var r := Movement(items, p, q, alloc, responsible, now, false, withComponents, limit);
      var it := items[p];
      r[p].batches == FefoDeduct(it.batches, q, it.shelfLifeDays) &&
      Total(r[p].batches) == Max0(Total(it.batches) - q) &&
      r[p].onLoanCount == it.onLoanCount && r[p].allocations == it.allocations &&
      r[p].history == Prepend(it.history, HistoryRecord(Exit, q, now, responsible), limit) &&
      r[p].totalStock == Total(r[p].batches) &&
      forall k :: 0 <= k < |items| && k != p && !References(items[k], it.id) ==> r[k] == items[k]
  {
    FefoTotal(items[p].batches, q, items[p].shelfLifeDays);
    var e := ExitAt(items, p, q, responsible, now);
    assert Movement(items, p, q, alloc, responsible, now, false, withComponents, limit) == FinishAt(e, p, limit);
    assert !IsKit(e[p]) && e[p].id == items[p].id;
  }

  /** Lending a kit whose components are distinct and other than itself raises its count on
      loan and records the allocation, and deducts from each component that resolves its
      required quantity times q, first-expiring first. */
  lemma LendKit(items: seq<Item>, p: nat, q: int, alloc: Allocation, responsible: string, now: int,
                limit: nat, i: nat, j: nat)
    requires p < |items| && AllKitsReady(items) && IsKit(items[p])
    requires DistinctIds(items[p].kitItems) && i < |items[p].kitItems|
    requires forall c :: 0 <= c < |items[p].kitItems| ==> items[p].kitItems[c].id != items[p].id
    requires ItemIndex(items, items[p].kitItems[i].id) == Some(j)
    ensures var r := Movement(items, p, q, alloc, responsible, now, true, true, limit);
      var it := items[p];
      r[p].onLoanCount == it.onLoanCount + q &&
      r[p].allocations == it.allocations + [alloc] &&
      r[j].batches == FefoDeduct(items[j].batches, it.kitItems[i].quantity * q, items[j].shelfLifeDays)
  {
    var it := items[p];
    var lent := LoanAt(items, p, q, alloc, responsible, now);
    CatalogIndex(items, lent, it.kitItems[i].id);
    assert j != p;
    PassDeducts(lent, it.kitItems, Lend(q), i, j);
  }

  /** The checks of allocateItemToServiceOrder: a known item, an existing order (the source
      fails on a missing one), and a positive quantity no larger than the available stock. */
  predicate OrderAllocationAllowed(items: seq<Item>, os: seq<ServiceOrder>, osId: string, itemId: string, q: int)
  {
    ItemIndex(items, itemId).Some? && OrderIndex(os, osId).Some? && q > 0 &&
    q <= items[ItemIndex(items, itemId).value].currentStock
  }

  function OrderAllocation(id: string, q: int, technicianId: string, now: int, osId: string): Allocation
  {
    Allocation(id, q, technicianId, now, "O.S. " + osId, Some(osId))
  }

  /** The technician's name, or 'Técnico desconhecido'. */
  function TechnicianName(cs: seq<Collaborator>, id: string): string
  {
    match CollaboratorIndex(cs, id)
    case Some(k) => if cs[k].name != "" then cs[k].name else "Técnico desconhecido"
    case None => "Técnico desconhecido"
  }

  /** allocateItemToServiceOrder: the movement of registerMovement attributed to the order's
      technician, with the order recorded in the allocation and the caller's allocation id;
      a kit's components are not deducted and no id is minted. */
  function OrderAllocationOutcome(l: Ledger, cs: seq<Collaborator>, settings: map<string, Value>, limit: nat,
                                  osId: string, itemId: string, quantity: int, allocationId: string, now: int)
    : (r: Outcome)
    requires AllKitsReady(l.items)
    ensures AllKitsReady(r.ledger.items)
    ensures r.ok <==> OrderAllocationAllowed(l.items, l.orders, osId, itemId, quantity)
    ensures r.ledger == l.(items := r.ledger.items)
    ensures !r.ok ==> r.ledger == l
  {
    match ItemIndex(l.items, itemId)
    case None => Outcome(false, l)
    case Some(p) =>
      match OrderIndex(l.orders, osId)
      case None => Outcome(false, l)
      case Some(o) =>
        if quantity <= 0 || l.items[p].currentStock < quantity then Outcome(false, l)
        else
          var tech := l.orders[o].technicianId;
          var alloc := OrderAllocation(allocationId, quantity, tech, now, osId);
          Outcome(true, l.(items := Movement(l.items, p, quantity, alloc, TechnicianName(cs, tech), now,
                                             IsLoanItem(settings, l.items[p]), false, limit)))
  }

  method AllocateItemToServiceOrderOn(l: Ledger, cs: seq<Collaborator>, settings: map<string, Value>, limit: nat,
                                      osId: string, itemId: string, quantity: int, allocationId: string, now: int)
    returns (r: Outcome)
    requires AllKitsReady(l.items)
    ensures r == OrderAllocationOutcome(l, cs, settings, limit, osId, itemId, quantity, allocationId, now)
  {
    var found := ItemIndex(l.items, itemId);
    var oi := OrderIndex(l.orders, osId);
    if found.None? || oi.None? || quantity <= 0 || l.items[found.value].currentStock < quantity {
      return Outcome(false, l);
    }
    var p := found.value;
    var tech := l.orders[oi.value].technicianId;
    var alloc := OrderAllocation(allocationId, quantity, tech, now, osId);
    var moved := Move(l.items, p, quantity, alloc, TechnicianName(cs, tech), now, IsLoanItem(settings, l.items[p]), false, limit);
    r := Outcome(true, l.(items := moved));
  }

  method AllocateItemToServiceOrder(w: Warehouse, osId: string, itemId: string, quantity: int, allocationId: string, now: int)
    returns (ok: bool)
    requires w.Valid()
    modifies w`items, w`debits, w`serviceOrders, w`nextId
    ensures w.Valid()
    ensures var r := OrderAllocationOutcome(old(w.LedgerOf()), old(w.collaborators), old(w.Settings()), w.historyLimit,
                                            osId, itemId, quantity, allocationId, now);
            ok == r.ok && w.LedgerOf() == r.ledger
  {
    var r := AllocateItemToServiceOrderOn(w.LedgerOf(), w.collaborators, w.Settings(), w.historyLimit,
                                          osId, itemId, quantity, allocationId, now);
    w.SaveLedger(r.ledger);
    ok := r.ok;
  }

  // ---- registerMultipleMovements ----

  /** A line of the checkout cart. */
  datatype CartLine = CartLine(id: string, quantity: int)

  /** The item of the line exists and its available stock covers the line. (For a missing
      item the source fails while composing its message; nothing is saved.) */
  predicate LineAvailable(items: seq<Item>, line: CartLine)
  {
    ItemIndex(items, line.id).Some? && line.quantity <= items[ItemIndex(items, line.id).value].currentStock
  }

  /** Every line is checked against the stock before any line is processed. */
  predicate CartAvailable(items: seq<Item>, cart: seq<CartLine>)
  {
    forall k :: 0 <= k < |cart| ==> LineAvailable(items, cart[k])
  }

  /** The line names an item that goes out on loan. */
  predicate LoanLine(items: seq<Item>, settings: map<string, Value>, line: CartLine)
  {
    ItemIndex(items, line.id).Some? && IsLoanItem(settings, items[ItemIndex(items, line.id).value])
  }

  /** The number of loan lines, each of which mints one allocation id. */
  function LoanCount(items: seq<Item>, settings: map<string, Value>, cart: seq<CartLine>): nat
  {
    if cart == [] then 0
    else LoanCount(items, settings, cart[..|cart| - 1]) + (if LoanLine(items, settings, cart[|cart| - 1]) then 1 else 0)
  }

  /** The loan of a checkout line: the allocation is recorded and, for a kit, the
      components are taken from their batches without recalculating them. */
  function CheckoutLoanAt(items: seq<Item>, p: nat, q: int, alloc: Allocation, name: string, now: int): (r: seq<Item>)
    requires p < |items| && AllKitsReady(items)
    ensures AllKitsReady(r) && SameCatalog(items, r)
  {
    var lent := LoanAt(items, p, q, alloc, name, now);
    if IsKit(items[p]) then Pass(lent, items[p].kitItems, Take(q)) else lent
  }

  /** The exit of a checkout line: the batches lose q and an exit record heads the history. */
  function CheckoutExitAt(items: seq<Item>, p: nat, q: int, name: string, now: int): (r: seq<Item>)
    requires p < |items| && AllKitsReady(items)
    ensures AllKitsReady(r) && SameCatalog(items, r)
  {
    UnshiftAt(DeductAt(items, p, q), p, HistoryRecord(Exit, q, now, name))
  }

  /** One line of the checkout, on the items as the earlier lines left them: a loan mints
      the allocation's id, an exit mints nothing. No history is cut. */
  function CheckoutLine(l: Ledger, settings: map<string, Value>, line: CartLine, collaboratorId: string,
                        name: string, location: string, now: int): (r: Ledger)
    requires AllKitsReady(l.items)
    ensures AllKitsReady(r.items) && SameCatalog(l.items, r.items)
    ensures r.debits == l.debits && r.orders == l.orders
    ensures r.next == l.next + (if LoanLine(l.items, settings, line) then 1 else 0)
  {
    match ItemIndex(l.items, line.id)
    case None => l
    case Some(p) =>
      var q := line.quantity;
      if IsLoanItem(settings, l.items[p]) then
        var alloc := LoanAllocation(MintId(l.next), q, collaboratorId, now, location);
        l.(items := CheckoutLoanAt(l.items, p, q, alloc, name, now), next := l.next + 1)
      else
        l.(items := CheckoutExitAt(l.items, p, q, name, now))
  }

  /** The lines in cart order. */
  function Checkout(l: Ledger, settings: map<string, Value>, cart: seq<CartLine>, collaboratorId: string,
                    name: string, location: string, now: int): (r: Ledger)
    requires AllKitsReady(l.items)
    ensures AllKitsReady(r.items) && SameCatalog(l.items, r.items)
    ensures r.debits == l.debits && r.orders == l.orders
    ensures r.next == l.next + LoanCount(l.items, settings, cart)
    decreases |cart|
  {
    if cart == [] then l
    else
      var before := Checkout(l, settings, cart[..|cart| - 1], collaboratorId, name, location, now);
      CatalogIndex(l.items, before.items, cart[|cart| - 1].id);
      CheckoutLine(before, settings, cart[|cart| - 1], collaboratorId, name, location, now)
  }

  /** The line's item is in the set of ids the cart names. */
  predicate InCart(cart: seq<CartLine>, id: string)
  {
    exists k :: 0 <= k < |cart| && cart[k].id == id
  }

  /** The closing forEach of the checkout, over the first n items in list order: every kit
      and every item the cart names is recalculated, each on the list as the earlier ones
      left it. Only those items change, and only in their stock figures. */
  function RecalcUpTo(items: seq<Item>, cart: seq<CartLine>, n: nat): (r: seq<Item>)
    requires n <= |items| && AllKitsReady(items)
    ensures SameButStock(items, r) && AllKitsReady(r)
    ensures forall k :: 0 <= k < |items| && (n <= k || !(IsKit(items[k]) || InCart(cart, items[k].id))) ==> r[k] == items[k]
    ensures forall k :: 0 <= k < n && !IsKit(items[k]) && InCart(cart, items[k].id) ==>
              r[k].totalStock == Total(items[k].batches) &&
              r[k].currentStock == Max0(Total(items[k].batches) - items[k].onLoanCount)
  {
    if n == 0 then items
    else
      var prev := RecalcUpTo(items, cart, n - 1);
      if IsKit(prev[n - 1]) || InCart(cart, prev[n - 1].id) then prev[n - 1 := Recalc(prev[n - 1], prev)] else prev
  }

  /** registerMultipleMovements: refused without any change for an unknown collaborator or
      when some line is not covered by the stock; otherwise every line is processed and the
      figures are recalculated once at the end. */
  function CheckoutOutcome(l: Ledger, cs: seq<Collaborator>, settings: map<string, Value>, cart: seq<CartLine>,
                           collaboratorId: string, location: string, now: int): (r: Outcome)
    requires AllKitsReady(l.items)
    ensures AllKitsReady(r.ledger.items) && SameCatalog(l.items, r.ledger.items)
    ensures r.ok <==> CollaboratorIndex(cs, collaboratorId).Some? && CartAvailable(l.items, cart)
    ensures !r.ok ==> r.ledger == l
    ensures r.ledger.debits == l.debits && r.ledger.orders == l.orders
    ensures r.ok ==> r.ledger.next == l.next + LoanCount(l.items, settings, cart)
  {
    match CollaboratorIndex(cs, collaboratorId)
    case None => Outcome(false, l)
    case Some(c) =>
      if !CartAvailable(l.items, cart) then Outcome(false, l)
      else
        var done := Checkout(l, settings, cart, collaboratorId, cs[c].name, location, now);
        Outcome(true, done.(items := RecalcUpTo(done.items, cart, |done.items|)))
  }

  /** CheckoutOutcome once the checks have passed. */
  lemma CheckoutOutcomeAllowed(l: Ledger, cs: seq<Collaborator>, settings: map<string, Value>, cart: seq<CartLine>,
                               collaboratorId: string, location: string, now: int, c: nat)
    requires AllKitsReady(l.items) && CollaboratorIndex(cs, collaboratorId) == Some(c) && CartAvailable(l.items, cart)
    ensures var done := Checkout(l, settings, cart, collaboratorId, cs[c].name, location, now);
            CheckoutOutcome(l, cs, settings, cart, collaboratorId, location, now) ==
            Outcome(true, done.(items := RecalcUpTo(done.items, cart, |done.items|)))
  {
  }

  method RegisterMultipleMovementsOn(l: Ledger, cs: seq<Collaborator>, settings: map<string, Value>,
                                     cart: seq<CartLine>, collaboratorId: string, location: string, now: int)
    returns (r: Outcome)
    requires AllKitsReady(l.items)
    ensures r == CheckoutOutcome(l, cs, settings, cart, collaboratorId, location, now)
  {
    var ci := CollaboratorIndex(cs, collaboratorId);
    if ci.None? {
      return Outcome(false, l);
    }
    var available := CheckCart(l.items, cart);
    if !available {
      return Outcome(false, l);
    }
    var done := CheckoutLoop(l, settings, cart, collaboratorId, cs[ci.value].name, location, now);
    var items := RecalcLoop(done.items, cart);
    r := Outcome(true, done.(items := items));
    CheckoutOutcomeAllowed(l, cs, settings, cart, collaboratorId, location, now, ci.value);
  }

  /** The first loop: every line is checked against the stock as it was. */
  method CheckCart(items: seq<Item>, cart: seq<CartLine>) returns (ok: bool)
    ensures ok == CartAvailable(items, cart)
  {
    for k := 0 to |cart|
      invariant forall j :: 0 <= j < k ==> LineAvailable(items, cart[j])
    {
      var found := ItemIndex(items, cart[k].id);
      if found.None? || items[found.value].currentStock < cart[k].quantity {
        return false;
      }
    }
    ok := true;
  }

  /** The second loop: the lines in cart order. */
  method CheckoutLoop(l: Ledger, settings: map<string, Value>, cart: seq<CartLine>, collaboratorId: string,
                      name: string, location: string, now: int) returns (r: Ledger)
    requires AllKitsReady(l.items)
    ensures r == Checkout(l, settings, cart, collaboratorId, name, location, now)
  {
    r := l;
    for k := 0 to |cart|
      invariant AllKitsReady(r.items)
      invariant r == Checkout(l, settings, cart[..k], collaboratorId, name, location, now)
    {
      assert cart[..k + 1][..k] == cart[..k];
      r := CheckoutLineOn(r, settings, cart[k], collaboratorId, name, location, now);
    }
    assert cart[..|cart|] == cart;
  }

  /** The closing forEach over the whole list. */
  method RecalcLoop(items: seq<Item>, cart: seq<CartLine>) returns (r: seq<Item>)
    requires AllKitsReady(items)
    ensures r == RecalcUpTo(items, cart, |items|)
  {
    r := items;
    for k := 0 to |items|
      invariant |r| == |items| && AllKitsReady(r)
      invariant r == RecalcUpTo(items, cart, k)
    {
      if IsKit(r[k]) || InCart(cart, r[k].id) {
        r := r[k := Recalc(r[k], r)];
      }
    }
  }

  /** CheckoutLine on a line whose item is at p. */
  lemma CheckoutLineFound(l: Ledger, settings: map<string, Value>, line: CartLine, collaboratorId: string,
                          name: string, location: string, now: int, p: nat)
    requires AllKitsReady(l.items) && ItemIndex(l.items, line.id) == Some(p)
    ensures CheckoutLine(l, settings, line, collaboratorId, name, location, now) ==
      if IsLoanItem(settings, l.items[p]) then
        l.(items := CheckoutLoanAt(l.items, p, line.quantity, LoanAllocation(MintId(l.next), line.quantity, collaboratorId, now, location), name, now),
           next := l.next + 1)
      else l.(items := CheckoutExitAt(l.items, p, line.quantity, name, now))
  {
  }

  /** CheckoutLine, computed with the loops of the source. */
  method CheckoutLineOn(l: Ledger, settings: map<string, Value>, line: CartLine, collaboratorId: string,
                        name: string, location: string, now: int) returns (r: Ledger)
    requires AllKitsReady(l.items)
    ensures r == CheckoutLine(l, settings, line, collaboratorId, name, location, now)
  {
    var found := ItemIndex(l.items, line.id);
    if found.None? {
      return l;
    }
    var p, q := found.value, line.quantity;
    CheckoutLineFound(l, settings, line, collaboratorId, name, location, now, p);
    if IsLoanItem(settings, l.items[p]) {
      var alloc := LoanAllocation(MintId(l.next), q, collaboratorId, now, location);
      var items := CheckoutLoanIn(l.items, p, q, alloc, name, now);
      r := l.(items := items, next := l.next + 1);
    } else {
      var items := DeductIn(l.items, p, q);
      items := UnshiftAt(items, p, HistoryRecord(Exit, q, now, name));
      r := l.(items := items);
    }
  }

  method CheckoutLoanIn(items: seq<Item>, p: nat, q: int, alloc: Allocation, name: string, now: int) returns (r: seq<Item>)
    requires p < |items| && AllKitsReady(items)
    ensures r == CheckoutLoanAt(items, p, q, alloc, name, now)
  {
    r := LoanAt(items, p, q, alloc, name, now);
    if IsKit(items[p]) {
      r := PassLoop(r, items[p].kitItems, Take(q));
    }
  }

  method RegisterMultipleMovements(w: Warehouse, cart: seq<CartLine>, collaboratorId: string, location: string, now: int)
    returns (ok: bool)
    requires w.Valid()
    modifies w`items, w`debits, w`serviceOrders, w`nextId
    ensures w.Valid()
    ensures var r := CheckoutOutcome(old(w.LedgerOf()), old(w.collaborators), old(w.Settings()), cart,
                                     collaboratorId, location, now);
            ok == r.ok && w.LedgerOf() == r.ledger
  {
    var r := RegisterMultipleMovementsOn(w.LedgerOf(), w.collaborators, w.Settings(), cart, collaboratorId, location, now);
    w.SaveLedger(r.ledger);
    ok := r.ok;
  }

  /** The figures of a simple item agree with its batches: the total is their sum and what
      is on loan is not available. */
  predicate StockSettled(it: Item)
  {
    it.totalStock == Total(it.batches) && it.currentStock == Max0(Total(it.batches) - it.onLoanCount)
  }

  /** After a checkout every simple item the cart names has figures consistent with its
      batches. */
  lemma CheckoutRecalculates(l: Ledger, cs: seq<Collaborator>, settings: map<string, Value>, cart: seq<CartLine>,
                             collaboratorId: string, location: string, now: int, k: nat)
    requires AllKitsReady(l.items)
    requires CheckoutOutcome(l, cs, settings, cart, collaboratorId, location, now).ok
    requires k < |l.items| && !IsKit(l.items[k]) && InCart(cart, l.items[k].id)
    ensures StockSettled(CheckoutOutcome(l, cs, settings, cart, collaboratorId, location, now).ledger.items[k])
  {
    var c := CollaboratorIndex(cs, collaboratorId).value;
    CheckoutOutcomeAllowed(l, cs, settings, cart, collaboratorId, location, now, c);
    var done := Checkout(l, settings, cart, collaboratorId, cs[c].name, location, now);
    RecalcUpToSettles(l.items, done.items, cart, k);
  }

  /** The closing recalculation settles every simple item the cart names. */
  lemma RecalcUpToSettles(items: seq<Item>, done: seq<Item>, cart: seq<CartLine>, k: nat)
    requires AllKitsReady(done) && SameCatalog(items, done)
    requires k < |items| && !IsKit(items[k]) && InCart(cart, items[k].id)
    ensures StockSettled(RecalcUpTo(done, cart, |done|)[k])
  {
    assert SameEntry(items[k], done[k]);
    var r := RecalcUpTo(done, cart, |done|);
    assert r[k].batches == done[k].batches && r[k].onLoanCount == done[k].onLoanCount;
  }

  /** A pass that takes components leaves every item no component entry names as it was. */
  lemma {:induction false} TakeKeeps(items: seq<Item>, comps: seq<KitComponent>, m: int, k: nat)
    requires AllKitsReady(items) && k < |items|
    requires forall i :: 0 <= i < |comps| ==> comps[i].id != items[k].id
    ensures Pass(items, comps, Take(m))[k] == items[k]
    decreases |comps|
  {
    if comps != [] {
      var init := comps[..|comps| - 1];
      TakeKeeps(items, init, m, k);
    }
  }

  /** One line leaves alone an item it does not name and that is not a component of a kit. */
  lemma CheckoutLineKeeps(l: Ledger, settings: map<string, Value>, line: CartLine, collaboratorId: string,
                          name: string, location: string, now: int, k: nat)
    requires AllKitsReady(l.items) && k < |l.items| && line.id != l.items[k].id
    requires forall i :: 0 <= i < |l.items| ==> !References(l.items[i], l.items[k].id)
    ensures CheckoutLine(l, settings, line, collaboratorId, name, location, now).items[k] == l.items[k]
  {
    var found := ItemIndex(l.items, line.id);
    if found.Some? {
      var p := found.value;
      CheckoutLineFound(l, settings, line, collaboratorId, name, location, now, p);
      if IsLoanItem(settings, l.items[p]) && IsKit(l.items[p]) {
        var alloc := LoanAllocation(MintId(l.next), line.quantity, collaboratorId, now, location);
        var lent := LoanAt(l.items, p, line.quantity, alloc, name, now);
        assert !References(l.items[p], l.items[k].id);
        TakeKeeps(lent, l.items[p].kitItems, line.quantity, k);
      }
    }
  }

  /** The lines leave alone an item none of them names and that is not a component of a kit. */
  lemma {:induction false} CheckoutKeeps(l: Ledger, settings: map<string, Value>, cart: seq<CartLine>,
                                         collaboratorId: string, name: string, location: string, now: int, k: nat)
    requires AllKitsReady(l.items) && k < |l.items| && !InCart(cart, l.items[k].id)
    requires forall i :: 0 <= i < |l.items| ==> !References(l.items[i], l.items[k].id)
    ensures Checkout(l, settings, cart, collaboratorId, name, location, now).items[k] == l.items[k]
    decreases |cart|
  {
    if cart != [] {
      var init := cart[..|cart| - 1];
      assert !InCart(init, l.items[k].id) by {
        forall j | 0 <= j < |init| ensures init[j].id != l.items[k].id {
          assert init[j] == cart[j];
        }
      }
      CheckoutKeeps(l, settings, init, collaboratorId, name, location, now, k);
      var before := Checkout(l, settings, init, collaboratorId, name, location, now);
      assert cart[|cart| - 1].id != l.items[k].id;
      assert forall i :: 0 <= i < |l.items| ==> SameEntry(l.items[i], before.items[i]);
      CheckoutLineKeeps(before, settings, cart[|cart| - 1], collaboratorId, name, location, now, k);
    }
  }

  /** A checkout changes no simple item that the cart does not name and no kit uses. */
  lemma CheckoutLeavesOthers(l: Ledger, cs: seq<Collaborator>, settings: map<string, Value>, cart: seq<CartLine>,
                             collaboratorId: string, location: string, now: int, k: nat)
    requires AllKitsReady(l.items) && k < |l.items| && !IsKit(l.items[k]) && !InCart(cart, l.items[k].id)
    requires forall i :: 0 <= i < |l.items| ==> !References(l.items[i], l.items[k].id)
    ensures CheckoutOutcome(l, cs, settings, cart, collaboratorId, location, now).ledger.items[k] == l.items[k]
  {
    var ci := CollaboratorIndex(cs, collaboratorId);
    if ci.Some? && CartAvailable(l.items, cart) {
      CheckoutOutcomeAllowed(l, cs, settings, cart, collaboratorId, location, now, ci.value);
      CheckoutKeeps(l, settings, cart, collaboratorId, cs[ci.value].name, location, now, k);
    }
  }

  // ---- returnAllocation ----

  /** One entry of the loss details of a returned kit: a component and the units lost. The
      details are an object keyed by component id, so a well-formed sequence repeats no id. */
  datatype LossLine = LossLine(componentId: string, quantity: int)

  /** The units recorded as lost for a component, 0 when it has no entry. */
  function LossOf(losses: seq<LossLine>, id: string): int
  {
    if losses == [] then 0
    else if losses[0].componentId == id then losses[0].quantity
    else LossOf(losses[1..], id)
  }

  /** Some entry records a positive loss. */
  predicate WithLoss(losses: seq<LossLine>)
  {
    exists k :: 0 <= k < |losses| && losses[k].quantity > 0
  }

  /** One entry of the loss details: a positive loss of a known item charges its value to
      the collaborator (when positive), takes the units from its batches and heads its
      history with a loss record; any other entry changes nothing. */
  function LossStep(l: Ledger, line: LossLine, collaboratorId: string, kitName: string, responsible: string,
                    now: int, limit: nat): (r: Ledger)
    requires AllKitsReady(l.items)
    ensures AllKitsReady(r.items) && SameCatalog(l.items, r.items) && SameLoans(l.items, r.items)
    ensures r.orders == l.orders
  {
    if line.quantity <= 0 then l
    else match ItemIndex(l.items, line.componentId)
      case None => l
      case Some(j) =>
        var comp := l.items[j];
        var amount := Cost(line.quantity, comp.price);
        var charge := Charge(collaboratorId, comp.id, comp.name, line.quantity, amount,
                             "Perda de componente do kit " + kitName + ".");
        var charged := if amount > 0.0 then PostDebit(l, charge, now) else l;
        var rec := HistoryRecord(Loss, line.quantity, now, responsible);
        charged.(items := PrependAt(DeductAt(charged.items, j, line.quantity), j, rec, limit))
  }

  /** The entries of the loss details in order. */
  function LossPass(l: Ledger, losses: seq<LossLine>, collaboratorId: string, kitName: string, responsible: string,
                    now: int, limit: nat): (r: Ledger)
    requires AllKitsReady(l.items)
    ensures AllKitsReady(r.items) && SameCatalog(l.items, r.items) && SameLoans(l.items, r.items)
    ensures r.orders == l.orders
    decreases |losses|
  {
    if losses == [] then l
    else LossStep(LossPass(l, losses[..|losses| - 1], collaboratorId, kitName, responsible, now, limit),
                  losses[|losses| - 1], collaboratorId, kitName, responsible, now, limit)
  }

  /** The day of the component's earliest entry record, or today, purchases the returned units. */
  function ReturnBatch(id: string, q: int, comp: Item, now: int): Batch
  {
    var bought := match EarliestEntry(comp.history) case Some(t) => t case None => now;
    Batch(id, q, Day(DayOf(bought)), Absent, comp.shelfLifeDays, true)
  }

  /** The units of a component that come back with aq kits: what the kits hold, less what
      was lost when the return records losses. */
  function Returned(c: KitComponent, aq: int, losses: seq<LossLine>, withLoss: bool): int
  {
    c.quantity * aq - (if withLoss then LossOf(losses, c.id) else 0)
  }

  /** One component of the returned kit: the units that come back form a new returned batch
      (with losses only when there are some), and the component and its kits are refreshed. */
  function RestockStep(l: Ledger, c: KitComponent, aq: int, losses: seq<LossLine>, withLoss: bool, now: int): (r: Ledger)
    requires AllKitsReady(l.items)
    ensures AllKitsReady(r.items) && SameCatalog(l.items, r.items) && SameLoans(l.items, r.items)
    ensures r.debits == l.debits && r.orders == l.orders
  {
    match ItemIndex(l.items, c.id)
    case None => l
    case Some(j) =>
      var q := Returned(c, aq, losses, withLoss);
      if !withLoss || q > 0 then
        var pushed := PushBatchAt(l.items, j, ReturnBatch(MintId(l.next), q, l.items[j], now));
        l.(items := RefreshAt(pushed, j), next := l.next + 1)
      else l.(items := RefreshAt(l.items, j))
  }

  /** The kit's components in list order. */
  function Restock(l: Ledger, comps: seq<KitComponent>, aq: int, losses: seq<LossLine>, withLoss: bool, now: int): (r: Ledger)
    requires AllKitsReady(l.items)
    ensures AllKitsReady(r.items) && SameCatalog(l.items, r.items) && SameLoans(l.items, r.items)
    ensures r.debits == l.debits && r.orders == l.orders
    decreases |comps|
  {
    if comps == [] then l
    else RestockStep(Restock(l, comps[..|comps| - 1], aq, losses, withLoss, now), comps[|comps| - 1], aq, losses, withLoss, now)
  }

  /** What a return does before its shared tail. A simple item gets its return record and
      its kits are refreshed (on its figures from before the return); a kit returned with
      losses has them recorded, then its return record, then its components restocked; a
      kit returned whole has its components restocked, then its return record. */
  function ReturnBody(l: Ledger, p: nat, alloc: Allocation, rec: HistoryRecord, losses: seq<LossLine>,
                      responsible: string, now: int, limit: nat): (r: Ledger)
    requires p < |l.items| && AllKitsReady(l.items)
    ensures AllKitsReady(r.items) && SameCatalog(l.items, r.items) && SameLoans(l.items, r.items)
    ensures r.orders == l.orders
  {
    var it := l.items[p];
    if !IsKit(it) then l.(items := UpdateAffectedKits(UnshiftAt(l.items, p, rec), it.id))
    else if WithLoss(losses) then
      var lost := LossPass(l, losses, alloc.collaboratorId, it.name, responsible, now, limit);
      Restock(lost.(items := UnshiftAt(lost.items, p, rec)), it.kitItems, alloc.quantity, losses, true, now)
    else
      var back := Restock(l, it.kitItems, alloc.quantity, losses, false, now);
      back.(items := UnshiftAt(back.items, p, rec))
  }

  /** The tail of every return: the history is cut to the limit, the count on loan drops
      by the allocation's quantity (never below zero), the allocation leaves the list and
      the item's figures are recalculated. */
  function ReturnTail(items: seq<Item>, p: nat, aq: int, a: nat, limit: nat): (r: seq<Item>)
    requires p < |items| && a < |items[p].allocations| && AllKitsReady(items)
    ensures AllKitsReady(r) && SameCatalog(items, r)
    ensures forall k :: 0 <= k < |items| && k != p ==> r[k] == items[k]
    ensures r[p].batches == items[p].batches && r[p].history == Truncate(items[p].history, limit)
    ensures r[p].onLoanCount == Max0(items[p].onLoanCount - aq) && r[p].allocations == RemoveAt(items[p].allocations, a)
  {
    var it := items[p];
    RecalcAt(items[p := it.(history := Truncate(it.history, limit), onLoanCount := Max0(it.onLoanCount - aq),
                            allocations := RemoveAt(it.allocations, a))], p)
  }

  /** The order an allocation belongs to, when it names one. */
  function OrderOf(alloc: Allocation): Option<string>
  {
    if alloc.serviceOrderId.Some? && alloc.serviceOrderId.value != "" then alloc.serviceOrderId else None
  }

  /** The checks of returnAllocation: a known item holding the allocation and, when the
      allocation belongs to a service order, a known order. */
  predicate ReturnAllowed(l: Ledger, itemId: string, allocationId: string)
  {
    ItemIndex(l.items, itemId).Some? &&
    AllocationIndex(l.items[ItemIndex(l.items, itemId).value].allocations, allocationId).Some? &&
    var alloc := l.items[ItemIndex(l.items, itemId).value].allocations[
                   AllocationIndex(l.items[ItemIndex(l.items, itemId).value].allocations, allocationId).value];
    (OrderOf(alloc).Some? ==> OrderIndex(l.orders, OrderOf(alloc).value).Some?)
  }

  /** returnAllocation: refused without any change unless the checks pass; otherwise the
      order line (if any) is marked returned and the allocation is closed. */
  function ReturnOutcome(l: Ledger, cs: seq<Collaborator>, limit: nat, itemId: string, allocationId: string,
                         losses: seq<LossLine>, now: int): (r: Outcome)
    requires AllKitsReady(l.items)
    ensures AllKitsReady(r.ledger.items) && SameCatalog(l.items, r.ledger.items)
    ensures r.ok <==> ReturnAllowed(l, itemId, allocationId)
    ensures !r.ok ==> r.ledger == l
  {
    match ItemIndex(l.items, itemId)
    case None => Outcome(false, l)
    case Some(p) =>
      match AllocationIndex(l.items[p].allocations, allocationId)
      case None => Outcome(false, l)
      case Some(a) =>
        var alloc := l.items[p].allocations[a];
        var marked := match OrderOf(alloc)
          case Some(osId) => MarkReturned(l.orders, osId, allocationId, now)
          case None => Some(l.orders);
        match marked
        case None => Outcome(false, l)
        case Some(os) => Outcome(true, ReturnClose(l.(orders := os), cs, p, a, losses, now, limit))
  }

  /** The return of allocation a of the item at p, once the order line is marked: the
      return record names the collaborator (or 'Desconhecido'). */
  function ReturnClose(l: Ledger, cs: seq<Collaborator>, p: nat, a: nat, losses: seq<LossLine>, now: int, limit: nat)
    : (r: Ledger)
    requires p < |l.items| && a < |l.items[p].allocations| && AllKitsReady(l.items)
    ensures AllKitsReady(r.items) && SameCatalog(l.items, r.items) && r.orders == l.orders
  {
    var alloc := l.items[p].allocations[a];
    var responsible := CollaboratorName(cs, alloc.collaboratorId);
    var rec := HistoryRecord(Return, alloc.quantity, now, responsible);
    var body := ReturnBody(l, p, alloc, rec, losses, responsible, now, limit);
    body.(items := ReturnTail(body.items, p, alloc.quantity, a, limit))
  }

  method LossStepOn(l: Ledger, line: LossLine, collaboratorId: string, kitName: string, responsible: string,
                    now: int, limit: nat) returns (r: Ledger)
    requires AllKitsReady(l.items)
    ensures r == LossStep(l, line, collaboratorId, kitName, responsible, now, limit)
  {
    if line.quantity <= 0 {
      return l;
    }
    var found := ItemIndex(l.items, line.componentId);
    if found.None? {
      return l;
    }
    var j := found.value;
    var comp := l.items[j];
    var amount := Cost(line.quantity, comp.price);
    r := l;
    if amount > 0.0 {
      r := PostDebit(r, Charge(collaboratorId, comp.id, comp.name, line.quantity, amount,
                               "Perda de componente do kit " + kitName + "."), now);
    }
    var items := DeductIn(r.items, j, line.quantity);
    r := r.(items := PrependAt(items, j, HistoryRecord(Loss, line.quantity, now, responsible), limit));
    LossStepFound(l, line, collaboratorId, kitName, responsible, now, limit, j);
  }

  /** LossStep on a positive loss of the item found at j. */
  lemma LossStepFound(l: Ledger, line: LossLine, collaboratorId: string, kitName: string, responsible: string,
                      now: int, limit: nat, j: nat)
    requires AllKitsReady(l.items) && line.quantity > 0 && ItemIndex(l.items, line.componentId) == Some(j)
    ensures var comp := l.items[j];
      var amount := Cost(line.quantity, comp.price);
      var charged := if amount > 0.0 then PostDebit(l, Charge(collaboratorId, comp.id, comp.name, line.quantity, amount,
                                                              "Perda de componente do kit " + kitName + "."), now)
                     else l;
      LossStep(l, line, collaboratorId, kitName, responsible, now, limit) ==
      charged.(items := PrependAt(DeductAt(charged.items, j, line.quantity), j,
                                  HistoryRecord(Loss, line.quantity, now, responsible), limit))
  {
  }

  /** The for-in loop over the loss details. */
  method LossLoop(l: Ledger, losses: seq<LossLine>, collaboratorId: string, kitName: string, responsible: string,
                  now: int, limit: nat) returns (r: Ledger)
    requires AllKitsReady(l.items)
    ensures r == LossPass(l, losses, collaboratorId, kitName, responsible, now, limit)
  {
    r := l;
    for k := 0 to |losses|
      invariant AllKitsReady(r.items)
      invariant r == LossPass(l, losses[..k], collaboratorId, kitName, responsible, now, limit)
    {
      assert losses[..k + 1][..k] == losses[..k];
      r := LossStepOn(r, losses[k], collaboratorId, kitName, responsible, now, limit);
    }
    assert losses[..|losses|] == losses;
  }

  method RestockStepOn(l: Ledger, c: KitComponent, aq: int, losses: seq<LossLine>, withLoss: bool, now: int)
    returns (r: Ledger)
    requires AllKitsReady(l.items)
    ensures r == RestockStep(l, c, aq, losses, withLoss, now)
  {
    var found := ItemIndex(l.items, c.id);
    if found.None? {
      return l;
    }
    var j := found.value;
    var q := Returned(c, aq, losses, withLoss);
    if !withLoss || q > 0 {
      var pushed := PushBatchAt(l.items, j, ReturnBatch(MintId(l.next), q, l.items[j], now));
      r := l.(items := RefreshAt(pushed, j), next := l.next + 1);
    } else {
      r := l.(items := RefreshAt(l.items, j));
    }
  }

  /** The forEach over the kit's components. */
  method RestockLoop(l: Ledger, comps: seq<KitComponent>, aq: int, losses: seq<LossLine>, withLoss: bool, now: int)
    returns (r: Ledger)
    requires AllKitsReady(l.items)
    ensures r == Restock(l, comps, aq, losses, withLoss, now)
  {
    r := l;
    for k := 0 to |comps|
      invariant AllKitsReady(r.items)
      invariant r == Restock(l, comps[..k], aq, losses, withLoss, now)
    {
      assert comps[..k + 1][..k] == comps[..k];
      r := RestockStepOn(r, comps[k], aq, losses, withLoss, now);
    }
    assert comps[..|comps|] == comps;
  }

  method ReturnBodyOn(l: Ledger, p: nat, alloc: Allocation, rec: HistoryRecord, losses: seq<LossLine>,
                      responsible: string, now: int, limit: nat) returns (r: Ledger)
    requires p < |l.items| && AllKitsReady(l.items)
    ensures r == ReturnBody(l, p, alloc, rec, losses, responsible, now, limit)
  {
    var it := l.items[p];
    if !IsKit(it) {
      var items := UnshiftAt(l.items, p, rec);
      return l.(items := UpdateAffectedKits(items, it.id));
    }
    var withLoss := false;
    for k := 0 to |losses|
      invariant withLoss <==> exists j :: 0 <= j < k && losses[j].quantity > 0
    {
      if losses[k].quantity > 0 {
        withLoss := true;
      }
    }
    if withLoss {
      r := LossLoop(l, losses, alloc.collaboratorId, it.name, responsible, now, limit);
      r := r.(items := UnshiftAt(r.items, p, rec));
      r := RestockLoop(r, it.kitItems, alloc.quantity, losses, true, now);
    } else {
      r := RestockLoop(l, it.kitItems, alloc.quantity, losses, false, now);
      r := r.(items := UnshiftAt(r.items, p, rec));
    }
  }

  /** ReturnOutcome once the checks have passed. */
  lemma ReturnOutcomeAllowed(l: Ledger, cs: seq<Collaborator>, limit: nat, itemId: string, allocationId: string,
                             losses: seq<LossLine>, now: int, p: nat, a: nat, os: seq<ServiceOrder>)
    requires AllKitsReady(l.items) && ItemIndex(l.items, itemId) == Some(p)
    requires AllocationIndex(l.items[p].allocations, allocationId) == Some(a)
    requires var alloc := l.items[p].allocations[a];
             match OrderOf(alloc)
             case Some(osId) => MarkReturned(l.orders, osId, allocationId, now) == Some(os)
             case None => os == l.orders
    ensures ReturnOutcome(l, cs, limit, itemId, allocationId, losses, now) ==
            Outcome(true, ReturnClose(l.(orders := os), cs, p, a, losses, now, limit))
  {
  }

  method ReturnAllocationOn(l: Ledger, cs: seq<Collaborator>, limit: nat, itemId: string, allocationId: string,
                            losses: seq<LossLine>, now: int) returns (r: Outcome)
    requires AllKitsReady(l.items)
    ensures r == ReturnOutcome(l, cs, limit, itemId, allocationId, losses, now)
  {
    var found := ItemIndex(l.items, itemId);
    if found.None? {
      return Outcome(false, l);
    }
    var p := found.value;
    var ai := AllocationIndex(l.items[p].allocations, allocationId);
    if ai.None? {
      return Outcome(false, l);
    }
    var a := ai.value;
    var alloc := l.items[p].allocations[a];
    var os := l.orders;
    if OrderOf(alloc).Some? {
      var marked := MarkReturned(l.orders, OrderOf(alloc).value, allocationId, now);
      if marked.None? {
        return Outcome(false, l);
      }
      os := marked.value;
    }
    var closed := ReturnCloseOn(l.(orders := os), cs, p, a, losses, now, limit);
    r := Outcome(true, closed);
    ReturnOutcomeAllowed(l, cs, limit, itemId, allocationId, losses, now, p, a, os);
  }

  method ReturnCloseOn(l: Ledger, cs: seq<Collaborator>, p: nat, a: nat, losses: seq<LossLine>, now: int, limit: nat)
    returns (r: Ledger)
    requires p < |l.items| && a < |l.items[p].allocations| && AllKitsReady(l.items)
    ensures r == ReturnClose(l, cs, p, a, losses, now, limit)
  {
    var alloc := l.items[p].allocations[a];
    var responsible := CollaboratorName(cs, alloc.collaboratorId);
    var rec := HistoryRecord(Return, alloc.quantity, now, responsible);
    var body := ReturnBodyOn(l, p, alloc, rec, losses, responsible, now, limit);
    r := body.(items := ReturnTail(body.items, p, alloc.quantity, a, limit));
  }

  method ReturnAllocation(w: Warehouse, itemId: string, allocationId: string, losses: seq<LossLine>, now: int)
    returns (ok: bool)
    requires w.Valid()
    modifies w`items, w`debits, w`serviceOrders, w`nextId
    ensures w.Valid()
    ensures var r := ReturnOutcome(old(w.LedgerOf()), old(w.collaborators), w.historyLimit, itemId, allocationId, losses, now);
            ok == r.ok && w.LedgerOf() == r.ledger
  {
    var r := ReturnAllocationOn(w.LedgerOf(), w.collaborators, w.historyLimit, itemId, allocationId, losses, now);
    w.SaveLedger(r.ledger);
    ok := r.ok;
  }

  /** The body of a return of a simple item only heads its history with the record. */
  lemma ReturnBodySimple(l: Ledger, p: nat, alloc: Allocation, rec: HistoryRecord, losses: seq<LossLine>,
                         responsible: string, now: int, limit: nat)
    requires p < |l.items| && AllKitsReady(l.items) && !IsKit(l.items[p])
    ensures var r := ReturnBody(l, p, alloc, rec, losses, responsible, now, limit);
            r.items[p] == l.items[p].(history := [rec] + l.items[p].history) && r.debits == l.debits && r.next == l.next
  {
  }

  /** The tail of a return of a simple item, written out. */
  lemma ReturnTailSimple(items: seq<Item>, p: nat, aq: int, a: nat, limit: nat)
    requires p < |items| && a < |items[p].allocations| && AllKitsReady(items) && !IsKit(items[p])
    ensures var it := items[p];
            var onLoan := Max0(it.onLoanCount - aq);
            ReturnTail(items, p, aq, a, limit)[p] ==
              it.(history := Truncate(it.history, limit), onLoanCount := onLoan, allocations := RemoveAt(it.allocations, a),
                  totalStock := Total(it.batches), currentStock := Max0(Total(it.batches) - onLoan))
  {
  }

  /** Returning a simple item closes the allocation: the count on loan drops by its quantity
      (never below zero), the allocation leaves the list, a return record heads the
      history, the batches are untouched and the figures agree with them again; no debit
      and no id is created. */
  lemma ReturnSimple(l: Ledger, cs: seq<Collaborator>, limit: nat, itemId: string, allocationId: string,
                     losses: seq<LossLine>, now: int, p: nat, a: nat)
    requires AllKitsReady(l.items) && ItemIndex(l.items, itemId) == Some(p) && !IsKit(l.items[p])
    requires AllocationIndex(l.items[p].allocations, allocationId) == Some(a)
    requires var alloc := l.items[p].allocations[a];
             OrderOf(alloc).Some? ==> OrderIndex(l.orders, OrderOf(alloc).value).Some?
    ensures var it := l.items[p];
      var alloc := it.allocations[a];
      var onLoan := Max0(it.onLoanCount - alloc.quantity);
      var rec := HistoryRecord(Return, alloc.quantity, now, CollaboratorName(cs, alloc.collaboratorId));
      var r := ReturnOutcome(l, cs, limit, itemId, allocationId, losses, now);
      r.ok && r.ledger.debits == l.debits && r.ledger.next == l.next &&
      r.ledger.items[p] == it.(history := Prepend(it.history, rec, limit), onLoanCount := onLoan,
                               allocations := RemoveAt(it.allocations, a),
                               totalStock := Total(it.batches), currentStock := Max0(Total(it.batches) - onLoan))
  {
    var alloc := l.items[p].allocations[a];
    if OrderOf(alloc).Some? {
      var os := MarkReturned(l.orders, OrderOf(alloc).value, allocationId, now).value;
      ReturnOutcomeAllowed(l, cs, limit, itemId, allocationId, losses, now, p, a, os);
      ReturnSimpleTail(l, os, cs, p, a, losses, now, limit);
    } else {
      ReturnOutcomeAllowed(l, cs, limit, itemId, allocationId, losses, now, p, a, l.orders);
      ReturnSimpleTail(l, l.orders, cs, p, a, losses, now, limit);
    }
  }

  lemma ReturnSimpleTail(l: Ledger, os: seq<ServiceOrder>, cs: seq<Collaborator>, p: nat, a: nat,
                         losses: seq<LossLine>, now: int, limit: nat)
    requires AllKitsReady(l.items) && p < |l.items| && !IsKit(l.items[p]) && a < |l.items[p].allocations|
    ensures var it := l.items[p];
      var alloc := it.allocations[a];
      var onLoan := Max0(it.onLoanCount - alloc.quantity);
      var rec := HistoryRecord(Return, alloc.quantity, now, CollaboratorName(cs, alloc.collaboratorId));
      var r := ReturnClose(l.(orders := os), cs, p, a, losses, now, limit);
      r.debits == l.debits && r.next == l.next &&
      r.items[p] == it.(history := Prepend(it.history, rec, limit), onLoanCount := onLoan,
                        allocations := RemoveAt(it.allocations, a),
                        totalStock := Total(it.batches), currentStock := Max0(Total(it.batches) - onLoan))
  {
    var l' := l.(orders := os);
    var alloc := l.items[p].allocations[a];
    var responsible := CollaboratorName(cs, alloc.collaboratorId);
    var rec := HistoryRecord(Return, alloc.quantity, now, responsible);
    var body := ReturnBody(l', p, alloc, rec, losses, responsible, now, limit);
    ReturnBodySimple(l', p, alloc, rec, losses, responsible, now, limit);
    ReturnTailSimple(body.items, p, alloc.quantity, a, limit);
  }

  /** A return of an allocation made for a service order marks that order's line returned
      (and only it); any other return leaves the orders alone. */
  lemma ReturnMarksOrder(l: Ledger, cs: seq<Collaborator>, limit: nat, itemId: string, allocationId: string,
                         losses: seq<LossLine>, now: int)
    requires AllKitsReady(l.items) && ReturnAllowed(l, itemId, allocationId)
    ensures var p := ItemIndex(l.items, itemId).value;
      var alloc := l.items[p].allocations[AllocationIndex(l.items[p].allocations, allocationId).value];
      var r := ReturnOutcome(l, cs, limit, itemId, allocationId, losses, now).ledger;
      match OrderOf(alloc)
      case Some(osId) => r.orders == MarkReturned(l.orders, osId, allocationId, now).value
      case None => r.orders == l.orders
  {
    var p := ItemIndex(l.items, itemId).value;
    var a := AllocationIndex(l.items[p].allocations, allocationId).value;
    var alloc := l.items[p].allocations[a];
    var os := match OrderOf(alloc) case Some(osId) => MarkReturned(l.orders, osId, allocationId, now).value case None => l.orders;
    ReturnOutcomeAllowed(l, cs, limit, itemId, allocationId, losses, now, p, a, os);
  }

  /** The batches after are those before and one more returned batch of q units, purchased
      on the day of the item's earliest entry (or today); only its id is not fixed here. */
  predicate ReturnedBatchAdded(before: Item, after: seq<Batch>, q: int, now: int)
  {
    |after| == |before.batches| + 1 && after == before.batches + [ReturnBatch(after[|before.batches|].id, q, before, now)]
  }

  lemma RestockStepFrame(l: Ledger, c: KitComponent, aq: int, losses: seq<LossLine>, withLoss: bool, now: int, k: nat)
    requires AllKitsReady(l.items) && k < |l.items| && l.items[k].id != c.id
    ensures RestockStep(l, c, aq, losses, withLoss, now).items[k].batches == l.items[k].batches
    ensures RestockStep(l, c, aq, losses, withLoss, now).items[k].history == l.items[k].history
  {
  }

  /** Restocking leaves alone the batches and history of an item no component entry names. */
  lemma {:induction false} RestockFrame(l: Ledger, comps: seq<KitComponent>, aq: int, losses: seq<LossLine>,
                                        withLoss: bool, now: int, k: nat)
    requires AllKitsReady(l.items) && k < |l.items|
    requires forall i :: 0 <= i < |comps| ==> comps[i].id != l.items[k].id
    ensures Restock(l, comps, aq, losses, withLoss, now).items[k].batches == l.items[k].batches
    ensures Restock(l, comps, aq, losses, withLoss, now).items[k].history == l.items[k].history
    decreases |comps|
  {
    if comps != [] {
      var init := comps[..|comps| - 1];
      RestockFrame(l, init, aq, losses, withLoss, now, k);
      RestockStepFrame(Restock(l, init, aq, losses, withLoss, now), comps[|comps| - 1], aq, losses, withLoss, now, k);
    }
  }

  /** The step on a component found at j adds the returned batch to it. */
  lemma RestockStepAdds(l: Ledger, c: KitComponent, aq: int, losses: seq<LossLine>, now: int, j: nat)
    requires AllKitsReady(l.items) && ItemIndex(l.items, c.id) == Some(j)
    ensures ReturnedBatchAdded(l.items[j], RestockStep(l, c, aq, losses, false, now).items[j].batches, c.quantity * aq, now)
  {
  }

  /** On a whole return, each component of a kit with distinct component ids gains one
      returned batch holding its required quantity times the number of kits returned. */
  lemma {:induction false} RestockAdds(l: Ledger, comps: seq<KitComponent>, aq: int, losses: seq<LossLine>, now: int,
                                       i: nat, j: nat)
    requires AllKitsReady(l.items) && DistinctIds(comps) && i < |comps|
    requires ItemIndex(l.items, comps[i].id) == Some(j)
    ensures ReturnedBatchAdded(l.items[j], Restock(l, comps, aq, losses, false, now).items[j].batches,
                               comps[i].quantity * aq, now)
    decreases |comps|
  {
    var init := comps[..|comps| - 1];
    var last := comps[|comps| - 1];
    var before := Restock(l, init, aq, losses, false, now);
    if i < |comps| - 1 {
      RestockAdds(l, init, aq, losses, now, i, j);
      assert before.items[j].id == comps[i].id;
      RestockStepFrame(before, last, aq, losses, false, now, j);
    } else {
      RestockFrame(l, init, aq, losses, false, now, j);
      CatalogIndex(l.items, before.items, last.id);
      RestockStepAdds(before, last, aq, losses, now, j);
      assert SameEntry(l.items[j], before.items[j]);
    }
  }

  /** Returning a kit whole, when its components are distinct and other than itself, puts
      back into each component that resolves its required quantity times the number of kits,
      as one new returned batch. */
  lemma KitFullReturn(l: Ledger, cs: seq<Collaborator>, limit: nat, itemId: string, allocationId: string,
                      losses: seq<LossLine>, now: int, i: nat, j: nat)
    requires AllKitsReady(l.items) && ReturnAllowed(l, itemId, allocationId) && !WithLoss(losses)
    requires var it := l.items[ItemIndex(l.items, itemId).value];
             IsKit(it) && DistinctIds(it.kitItems) && i < |it.kitItems| &&
             (forall c :: 0 <= c < |it.kitItems| ==> it.kitItems[c].id != it.id) &&
             ItemIndex(l.items, it.kitItems[i].id) == Some(j)
    ensures var p := ItemIndex(l.items, itemId).value;
      var aq := l.items[p].allocations[AllocationIndex(l.items[p].allocations, allocationId).value].quantity;
      var r := ReturnOutcome(l, cs, limit, itemId, allocationId, losses, now).ledger;
      ReturnedBatchAdded(l.items[j], r.items[j].batches, l.items[p].kitItems[i].quantity * aq, now)
  {
    var p := ItemIndex(l.items, itemId).value;
    var a := AllocationIndex(l.items[p].allocations, allocationId).value;
    var alloc := l.items[p].allocations[a];
    var os := match OrderOf(alloc) case Some(osId) => MarkReturned(l.orders, osId, allocationId, now).value case None => l.orders;
    ReturnOutcomeAllowed(l, cs, limit, itemId, allocationId, losses, now, p, a, os);
    KitFullClose(l, os, cs, p, a, losses, now, limit, i, j);
  }

  lemma KitFullClose(l: Ledger, os: seq<ServiceOrder>, cs: seq<Collaborator>, p: nat, a: nat, losses: seq<LossLine>,
                     now: int, limit: nat, i: nat, j: nat)
    requires AllKitsReady(l.items) && p < |l.items| && a < |l.items[p].allocations| && !WithLoss(losses)
    requires var it := l.items[p];
             IsKit(it) && DistinctIds(it.kitItems) && i < |it.kitItems| &&
             (forall c :: 0 <= c < |it.kitItems| ==> it.kitItems[c].id != it.id) &&
             ItemIndex(l.items, it.kitItems[i].id) == Some(j)
    ensures var it := l.items[p];
      var r := ReturnClose(l.(orders := os), cs, p, a, losses, now, limit);
      ReturnedBatchAdded(l.items[j], r.items[j].batches, it.kitItems[i].quantity * it.allocations[a].quantity, now)
  {
    var it := l.items[p];
    assert j != p;
    RestockAdds(l.(orders := os), it.kitItems, it.allocations[a].quantity, losses, now, i, j);
  }

  // ---- returnMultipleAllocations ----

  /** The first item holding the allocation. */
  function HolderIndex(items: seq<Item>, allocationId: string): (r: Option<nat>)
    ensures r.Some? ==> r.value < |items| && AllocationIndex(items[r.value].allocations, allocationId).Some?
    ensures r.Some? ==> forall k :: 0 <= k < r.value ==> AllocationIndex(items[k].allocations, allocationId).None?
    ensures r.None? ==> forall k :: 0 <= k < |items| ==> AllocationIndex(items[k].allocations, allocationId).None?
  {
    if items == [] then None
    else if AllocationIndex(items[0].allocations, allocationId).Some? then Some(0)
    else match HolderIndex(items[1..], allocationId)
      case None => None
      case Some(k) => Some(k + 1)
  }

  /** The records after some returns and the number of returns that succeeded. */
  datatype Tally = Tally(ledger: Ledger, count: nat)

  /** One allocation returned whole (no losses) from the item that held it in the list
      as it was before the first return; an allocation no item held is skipped. */
  function ReturnNext(t: Tally, snapshot: seq<Item>, cs: seq<Collaborator>, limit: nat, id: string, now: int)
    : (r: Tally)
    requires AllKitsReady(t.ledger.items)
    ensures AllKitsReady(r.ledger.items) && SameCatalog(t.ledger.items, r.ledger.items)
    ensures r.count == t.count || r.count == t.count + 1
    ensures r.count == t.count ==> r.ledger == t.ledger
  {
    match HolderIndex(snapshot, id)
    case None => t
    case Some(k) =>
      var o := ReturnOutcome(t.ledger, cs, limit, snapshot[k].id, id, [], now);
      Tally(o.ledger, t.count + if o.ok then 1 else 0)
  }

  /** The allocations in order, on the records as the earlier returns left them. */
  function ReturnEach(l: Ledger, snapshot: seq<Item>, cs: seq<Collaborator>, limit: nat, ids: seq<string>, now: int)
    : (r: Tally)
    requires AllKitsReady(l.items)
    ensures AllKitsReady(r.ledger.items) && SameCatalog(l.items, r.ledger.items)
    ensures r.count <= |ids|
    ensures r.count == 0 ==> r.ledger == l
    decreases |ids|
  {
    if ids == [] then Tally(l, 0)
    else ReturnNext(ReturnEach(l, snapshot, cs, limit, ids[..|ids| - 1], now), snapshot, cs, limit, ids[|ids| - 1], now)
  }

  /** returnMultipleAllocations: true when at least one allocation was returned; when none
      was, nothing changed. */
  function ReturnMultipleOutcome(l: Ledger, cs: seq<Collaborator>, limit: nat, ids: seq<string>, now: int): (r: Outcome)
    requires AllKitsReady(l.items)
    ensures AllKitsReady(r.ledger.items) && SameCatalog(l.items, r.ledger.items)
    ensures !r.ok ==> r.ledger == l
  {
    var t := ReturnEach(l, l.items, cs, limit, ids, now);
    Outcome(t.count > 0, t.ledger)
  }

  method ReturnMultipleAllocationsOn(l: Ledger, cs: seq<Collaborator>, limit: nat, ids: seq<string>, now: int)
    returns (r: Outcome)
    requires AllKitsReady(l.items)
    ensures r == ReturnMultipleOutcome(l, cs, limit, ids, now)
  {
    var snapshot := l.items;
    var t := Tally(l, 0);
    for k := 0 to |ids|
      invariant AllKitsReady(t.ledger.items)
      invariant t == ReturnEach(l, snapshot, cs, limit, ids[..k], now)
    {
      assert ids[..k + 1][..k] == ids[..k];
      t := ReturnNextOn(t, snapshot, cs, limit, ids[k], now);
    }
    assert ids[..|ids|] == ids;
    r := Outcome(t.count > 0, t.ledger);
  }

  method ReturnNextOn(t: Tally, snapshot: seq<Item>, cs: seq<Collaborator>, limit: nat, id: string, now: int)
    returns (r: Tally)
    requires AllKitsReady(t.ledger.items)
    ensures r == ReturnNext(t, snapshot, cs, limit, id, now)
  {
    var holder := HolderIndex(snapshot, id);
    if holder.None? {
      return t;
    }
    var o := ReturnAllocationOn(t.ledger, cs, limit, snapshot[holder.value].id, id, [], now);
    r := Tally(o.ledger, t.count + if o.ok then 1 else 0);
  }

  method ReturnMultipleAllocations(w: Warehouse, ids: seq<string>, now: int) returns (ok: bool)
    requires w.Valid()
    modifies w`items, w`debits, w`serviceOrders, w`nextId
    ensures w.Valid()
    ensures var r := ReturnMultipleOutcome(old(w.LedgerOf()), old(w.collaborators), w.historyLimit, ids, now);
            ok == r.ok && w.LedgerOf() == r.ledger
  {
    var r := ReturnMultipleAllocationsOn(w.LedgerOf(), w.collaborators, w.historyLimit, ids, now);
    w.SaveLedger(r.ledger);
    ok := r.ok;
  }

  /** A batch of one allocation is the return of that allocation from the item holding it. */
  lemma ReturnMultipleOne(l: Ledger, cs: seq<Collaborator>, limit: nat, id: string, now: int, k: nat)
    requires AllKitsReady(l.items) && HolderIndex(l.items, id) == Some(k)
    ensures ReturnMultipleOutcome(l, cs, limit, [id], now) == ReturnOutcome(l, cs, limit, l.items[k].id, id, [], now)
  {
    assert [id][..0] == [];
  }

  /** One id of a batch applied to some records: the whole return from the item that held
      it in the snapshot, or a refusal that changes nothing when no item held it. */
  function ReturnStep(l: Ledger, snapshot: seq<Item>, cs: seq<Collaborator>, limit: nat, id: string, now: int)
    : (r: Outcome)
    requires AllKitsReady(l.items)
    ensures AllKitsReady(r.ledger.items)
    ensures !r.ok ==> r.ledger == l
  {
    match HolderIndex(snapshot, id)
    case None => Outcome(false, l)
    case Some(k) => ReturnOutcome(l, cs, limit, snapshot[k].id, id, [], now)
  }

  /** The returns of the ids composed front to back, each on the records the previous one left. */
  function ReturnsComposed(l: Ledger, snapshot: seq<Item>, cs: seq<Collaborator>, limit: nat, ids: seq<string>, now: int)
    : (r: Ledger)
    requires AllKitsReady(l.items)
    ensures AllKitsReady(r.items)
    decreases |ids|
  {
    if ids == [] then l
    else ReturnsComposed(ReturnStep(l, snapshot, cs, limit, ids[0], now).ledger, snapshot, cs, limit, ids[1..], now)
  }

  /** The return of the k-th id succeeded, on the records the earlier ids left. */
  predicate ReturnedAt(l: Ledger, snapshot: seq<Item>, cs: seq<Collaborator>, limit: nat, ids: seq<string>, k: nat, now: int)
    requires AllKitsReady(l.items) && k < |ids|
  {
    ReturnStep(ReturnsComposed(l, snapshot, cs, limit, ids[..k], now), snapshot, cs, limit, ids[k], now).ok
  }

  lemma {:induction false} ComposedSnoc(l: Ledger, snapshot: seq<Item>, cs: seq<Collaborator>, limit: nat,
                                        ids: seq<string>, id: string, now: int)
    requires AllKitsReady(l.items)
    ensures ReturnsComposed(l, snapshot, cs, limit, ids + [id], now) ==
              ReturnStep(ReturnsComposed(l, snapshot, cs, limit, ids, now), snapshot, cs, limit, id, now).ledger
    decreases |ids|
  {
    if ids == [] {
      assert [] + [id] == [id];
    } else {
      var l1 := ReturnStep(l, snapshot, cs, limit, ids[0], now).ledger;
      assert (ids + [id])[1..] == ids[1..] + [id];
      ComposedSnoc(l1, snapshot, cs, limit, ids[1..], id, now);
    }
  }

  lemma ComposedLast(l: Ledger, snapshot: seq<Item>, cs: seq<Collaborator>, limit: nat, ids: seq<string>, now: int)
    requires AllKitsReady(l.items) && ids != []
    ensures ReturnsComposed(l, snapshot, cs, limit, ids, now) ==
              ReturnStep(ReturnsComposed(l, snapshot, cs, limit, ids[..|ids| - 1], now), snapshot, cs, limit, ids[|ids| - 1], now).ledger
  {
    var n := |ids| - 1;
    ComposedSnoc(l, snapshot, cs, limit, ids[..n], ids[n], now);
    assert ids == ids[..n] + [ids[n]];
  }

  lemma NextIsStep(t: Tally, snapshot: seq<Item>, cs: seq<Collaborator>, limit: nat, id: string, now: int)
    requires AllKitsReady(t.ledger.items)
    ensures var o := ReturnStep(t.ledger, snapshot, cs, limit, id, now);
            ReturnNext(t, snapshot, cs, limit, id, now) == Tally(o.ledger, t.count + if o.ok then 1 else 0)
  {
  }

  lemma {:induction false} ReturnEachLedger(l: Ledger, snapshot: seq<Item>, cs: seq<Collaborator>, limit: nat,
                                            ids: seq<string>, now: int)
    requires AllKitsReady(l.items)
    ensures ReturnEach(l, snapshot, cs, limit, ids, now).ledger == ReturnsComposed(l, snapshot, cs, limit, ids, now)
    decreases |ids|
  {
    if ids != [] {
      var n := |ids| - 1;
      var pre := ids[..n];
      var t := ReturnEach(l, snapshot, cs, limit, pre, now);
      ReturnEachLedger(l, snapshot, cs, limit, pre, now);
      ComposedLast(l, snapshot, cs, limit, ids, now);
      NextIsStep(t, snapshot, cs, limit, ids[n], now);
      assert ReturnEach(l, snapshot, cs, limit, ids, now) == ReturnNext(t, snapshot, cs, limit, ids[n], now);
    }
  }

  /** Some id of the batch was returned. */
  predicate AnyReturned(l: Ledger, snapshot: seq<Item>, cs: seq<Collaborator>, limit: nat, ids: seq<string>, now: int)
    requires AllKitsReady(l.items)
  {
    exists k: nat :: k < |ids| && ReturnedAt(l, snapshot, cs, limit, ids, k, now)
  }

  lemma ReturnedAtPrefix(l: Ledger, snapshot: seq<Item>, cs: seq<Collaborator>, limit: nat, ids: seq<string>,
                         n: nat, k: nat, now: int)
    requires AllKitsReady(l.items) && k < n <= |ids|
    ensures ReturnedAt(l, snapshot, cs, limit, ids[..n], k, now) == ReturnedAt(l, snapshot, cs, limit, ids, k, now)
  {
    PrefixOfPrefix(ids, n, k);
  }

  lemma AnyReturnedSnoc(l: Ledger, snapshot: seq<Item>, cs: seq<Collaborator>, limit: nat, ids: seq<string>, now: int)
    requires AllKitsReady(l.items) && ids != []
    ensures AnyReturned(l, snapshot, cs, limit, ids, now) <==>
              AnyReturned(l, snapshot, cs, limit, ids[..|ids| - 1], now) ||
              ReturnedAt(l, snapshot, cs, limit, ids, |ids| - 1, now)
  {
    var n := |ids| - 1;
    var pre := ids[..n];
    if AnyReturned(l, snapshot, cs, limit, ids, now) {
      var k: nat :| k < |ids| && ReturnedAt(l, snapshot, cs, limit, ids, k, now);
      if k < n {
        ReturnedAtPrefix(l, snapshot, cs, limit, ids, n, k, now);
        assert AnyReturned(l, snapshot, cs, limit, pre, now);
      } else {
        assert k == n;
      }
    }
    if AnyReturned(l, snapshot, cs, limit, pre, now) {
      var k: nat :| k < |pre| && ReturnedAt(l, snapshot, cs, limit, pre, k, now);
      ReturnedAtPrefix(l, snapshot, cs, limit, ids, n, k, now);
      assert AnyReturned(l, snapshot, cs, limit, ids, now);
    }
    if ReturnedAt(l, snapshot, cs, limit, ids, n, now) {
      assert AnyReturned(l, snapshot, cs, limit, ids, now);
    }
  }

  lemma {:induction false} ReturnEachCount(l: Ledger, snapshot: seq<Item>, cs: seq<Collaborator>, limit: nat,
                                           ids: seq<string>, now: int)
    requires AllKitsReady(l.items)
    ensures ReturnEach(l, snapshot, cs, limit, ids, now).count > 0 <==> AnyReturned(l, snapshot, cs, limit, ids, now)
    decreases |ids|
  {
    if ids != [] {
      var n := |ids| - 1;
      var pre := ids[..n];
      ReturnEachCount(l, snapshot, cs, limit, pre, now);
      ReturnEachLedger(l, snapshot, cs, limit, pre, now);
      AnyReturnedSnoc(l, snapshot, cs, limit, ids, now);
      var t := ReturnEach(l, snapshot, cs, limit, pre, now);
      NextIsStep(t, snapshot, cs, limit, ids[n], now);
      assert ReturnedAt(l, snapshot, cs, limit, ids, n, now) == ReturnStep(t.ledger, snapshot, cs, limit, ids[n], now).ok;
    }
  }

  /** For any number of ids, the batch return is the composition of the single returns in
      order, and it reports success exactly when one of them succeeded. */
  lemma ReturnMultipleComposes(l: Ledger, cs: seq<Collaborator>, limit: nat, ids: seq<string>, now: int)
    requires AllKitsReady(l.items)
    ensures ReturnMultipleOutcome(l, cs, limit, ids, now).ledger == ReturnsComposed(l, l.items, cs, limit, ids, now)
    ensures ReturnMultipleOutcome(l, cs, limit, ids, now).ok <==>
              exists k: nat :: k < |ids| && ReturnedAt(l, l.items, cs, limit, ids, k, now)
  {
    ReturnEachLedger(l, l.items, cs, limit, ids, now);
    ReturnEachCount(l, l.items, cs, limit, ids, now);
  }

  // ---- registerLoss ----

  /** The value of what aq lost kits held: each component that resolves is charged its
      price for its required quantity times aq; one that does not adds nothing. */
  function KitLossValue(items: seq<Item>, comps: seq<KitComponent>, aq: int): real
  {
    if comps == [] then 0.0
    else
      var rest := KitLossValue(items, comps[1..], aq);
      match ItemIndex(items, comps[0].id)
      case None => rest
      case Some(j) => Cost(comps[0].quantity * aq, items[j].price) + rest
  }

  /** What a loss does to the stock: a kit's components each lose their share of the kits
      (with a loss record and a refresh of the component and its kits); a simple item loses
      the units from its batches and its kits are refreshed. */
  function LossItems(items: seq<Item>, p: nat, aq: int, responsible: string, now: int, limit: nat): (r: seq<Item>)
    requires p < |items| && AllKitsReady(items)
    ensures SameCatalog(items, r) && AllKitsReady(r) && SameLoans(items, r)
  {
    if IsKit(items[p]) then Pass(items, items[p].kitItems, Lose(aq, responsible, now, limit))
    else UpdateAffectedKits(DeductAt(items, p, aq), items[p].id)
  }

  /** The debit of a loss: the components' value for a kit, calculateDebitValue otherwise. */
  function LossAmount(items: seq<Item>, it: Item, alloc: Allocation, policy: string, now: int): real
  {
    if IsKit(it) then KitLossValue(items, it.kitItems, alloc.quantity)
    else DebitValue(it, alloc, items, policy, now)
  }

  /** The loss record at the head of the history (cut to the limit) and the allocation
      out of the list. */
  function LossRecorded(items: seq<Item>, p: nat, a: nat, rec: HistoryRecord, limit: nat): (r: seq<Item>)
    requires p < |items| && a < |items[p].allocations|
    ensures SameCatalog(items, r) && (AllKitsReady(items) ==> AllKitsReady(r))
    ensures |r| == |items| && forall k :: 0 <= k < |items| && k != p ==> r[k] == items[k]
    ensures r[p] == items[p].(history := Prepend(items[p].history, rec, limit),
                              allocations := RemoveAt(items[p].allocations, a))
  {
    items[p := items[p].(history := Prepend(items[p].history, rec, limit),
                         allocations := RemoveAt(items[p].allocations, a))]
  }

  /** The debit of a loss goes to the collaborator when the value is positive and the
      collaborator is known; addDebit then records it when it reaches half a cent. */
  function LossCharge(base: Ledger, cs: seq<Collaborator>, it: Item, alloc: Allocation, amount: real, reason: string,
                      now: int): (r: Ledger)
    ensures r.items == base.items && r.orders == base.orders
    ensures amount >= 0.005 && CollaboratorIndex(cs, alloc.collaboratorId).Some? ==>
      r.debits == [NewDebit(MintId(base.next), Charge(alloc.collaboratorId, it.id, it.name, alloc.quantity, amount, reason), now)]
                  + base.debits && r.next == base.next + 1
    ensures amount < 0.005 || CollaboratorIndex(cs, alloc.collaboratorId).None? ==> r == base
  {
    if amount > 0.0 && CollaboratorIndex(cs, alloc.collaboratorId).Some? then
      PostDebit(base, Charge(alloc.collaboratorId, it.id, it.name, alloc.quantity, amount, reason), now)
    else base
  }

  /** The list with the count on loan of the item at p lowered by the quantity of its
      allocation a, never below zero. */
  function Unloaned(items: seq<Item>, p: nat, a: nat): (r: seq<Item>)
    requires p < |items| && a < |items[p].allocations|
    ensures |r| == |items| && SameCatalog(items, r) && (AllKitsReady(items) ==> AllKitsReady(r))
    ensures forall k :: 0 <= k < |items| && k != p ==> r[k] == items[k]
    ensures r[p] == items[p].(onLoanCount := Max0(items[p].onLoanCount - items[p].allocations[a].quantity))
  {
    items[p := items[p].(onLoanCount := Max0(items[p].onLoanCount - items[p].allocations[a].quantity))]
  }

  /** What the loss of allocation a does to the items: the count on loan of the item at p
      drops first (never below zero), the stock goes, a loss record heads its history, the
      allocation leaves its list, and the item is recalculated. */
  function LossStock(items: seq<Item>, p: nat, a: nat, responsible: string, now: int, limit: nat): (r: seq<Item>)
    requires p < |items| && a < |items[p].allocations| && AllKitsReady(items)
    ensures AllKitsReady(r) && SameCatalog(items, r)
  {
    var it := items[p];
    var alloc := it.allocations[a];
    var reduced := Unloaned(items, p, a);
    var moved := LossItems(reduced, p, alloc.quantity, responsible, now, limit);
    RecalcAt(LossRecorded(moved, p, a, HistoryRecord(Loss, alloc.quantity, now, responsible), limit), p)
  }

  /** The loss of allocation a of the item at p: the value is charged and the items change
      as LossStock says (the debit reads no stock figure, so the order of the two does not
      matter). */
  function LossClose(l: Ledger, cs: seq<Collaborator>, policy: string, p: nat, a: nat, reason: string,
                     now: int, limit: nat): (r: Ledger)
    requires p < |l.items| && a < |l.items[p].allocations| && AllKitsReady(l.items)
    ensures AllKitsReady(r.items) && SameCatalog(l.items, r.items) && r.orders == l.orders
  {
    var it := l.items[p];
    var alloc := it.allocations[a];
    var charged := LossCharge(l, cs, it, alloc, LossAmount(l.items, it, alloc, policy, now), reason, now);
    charged.(items := LossStock(l.items, p, a, CollaboratorName(cs, alloc.collaboratorId), now, limit))
  }

  /** registerLoss: refused without any change for an unknown item or allocation. */
  function LossOutcome(l: Ledger, cs: seq<Collaborator>, settings: map<string, Value>, limit: nat, itemId: string,
                       allocationId: string, reason: string, now: int): (r: Outcome)
    requires AllKitsReady(l.items)
    ensures AllKitsReady(r.ledger.items) && SameCatalog(l.items, r.ledger.items) && r.ledger.orders == l.orders
    ensures r.ok <==> ItemIndex(l.items, itemId).Some? &&
                      AllocationIndex(l.items[ItemIndex(l.items, itemId).value].allocations, allocationId).Some?
    ensures !r.ok ==> r.ledger == l
  {
    match ItemIndex(l.items, itemId)
    case None => Outcome(false, l)
    case Some(p) =>
      match AllocationIndex(l.items[p].allocations, allocationId)
      case None => Outcome(false, l)
      case Some(a) => Outcome(true, LossClose(l, cs, DebitPolicy(settings), p, a, reason, now, limit))
  }

  method RegisterLossOn(l: Ledger, cs: seq<Collaborator>, settings: map<string, Value>, limit: nat, itemId: string,
                        allocationId: string, reason: string, now: int) returns (r: Outcome)
    requires AllKitsReady(l.items)
    ensures r == LossOutcome(l, cs, settings, limit, itemId, allocationId, reason, now)
  {
    var found := ItemIndex(l.items, itemId);
    if found.None? {
      return Outcome(false, l);
    }
    var p := found.value;
    var ai := AllocationIndex(l.items[p].allocations, allocationId);
    if ai.None? {
      return Outcome(false, l);
    }
    var closed := LossCloseOn(l, cs, DebitPolicy(settings), p, ai.value, reason, now, limit);
    r := Outcome(true, closed);
  }

  method LossCloseOn(l: Ledger, cs: seq<Collaborator>, policy: string, p: nat, a: nat, reason: string,
                     now: int, limit: nat) returns (r: Ledger)
    requires p < |l.items| && a < |l.items[p].allocations| && AllKitsReady(l.items)
    ensures r == LossClose(l, cs, policy, p, a, reason, now, limit)
  {
    var it := l.items[p];
    var alloc := it.allocations[a];
    var items, amount := LossStockIn(l.items, p, a, CollaboratorName(cs, alloc.collaboratorId), policy, now, limit);
    r := LossCharge(l, cs, it, alloc, amount, reason, now);
    r := r.(items := items);
  }

  method LossStockIn(items: seq<Item>, p: nat, a: nat, responsible: string, policy: string, now: int, limit: nat)
    returns (r: seq<Item>, amount: real)
    requires p < |items| && a < |items[p].allocations| && AllKitsReady(items)
    ensures r == LossStock(items, p, a, responsible, now, limit)
    ensures amount == LossAmount(items, items[p], items[p].allocations[a], policy, now)
  {
    var it := items[p];
    var alloc := it.allocations[a];
    var reduced := Unloaned(items, p, a);
    var moved;
    moved, amount := LossStockOn(items, reduced, p, it, alloc, policy, responsible, now, limit);
    var closed := LossRecorded(moved, p, a, HistoryRecord(Loss, alloc.quantity, now, responsible), limit);
    r := RecalcAt(closed, p);
  }

  /** The branch of registerLoss on the item's type, on the list with the count on loan
      already lowered. */
  method LossStockOn(items: seq<Item>, reduced: seq<Item>, p: nat, it: Item, alloc: Allocation, policy: string,
                     responsible: string, now: int, limit: nat) returns (moved: seq<Item>, amount: real)
    requires p < |reduced| && AllKitsReady(reduced) && SameCatalog(items, reduced) && SameEntry(it, reduced[p])
    ensures moved == LossItems(reduced, p, alloc.quantity, responsible, now, limit)
    ensures amount == LossAmount(items, it, alloc, policy, now)
  {
    if IsKit(it) {
      moved, amount := LoseLoop(reduced, it.kitItems, alloc.quantity, responsible, now, limit);
      KitLossCatalog(reduced, items, it.kitItems, alloc.quantity);
    } else {
      amount := DebitValue(it, alloc, items, policy, now);
      moved := DeductIn(reduced, p, alloc.quantity);
      moved := UpdateAffectedKits(moved, it.id);
    }
  }

  /** The reduce over a lost kit's components: each one found loses its share, and its
      value is added to the debit. */
  method LoseLoop(items: seq<Item>, comps: seq<KitComponent>, aq: int, responsible: string, now: int, limit: nat)
    returns (r: seq<Item>, amount: real)
    requires AllKitsReady(items)
    ensures r == Pass(items, comps, Lose(aq, responsible, now, limit))
    ensures amount == KitLossValue(items, comps, aq)
  {
    var act := Lose(aq, responsible, now, limit);
    r := items;
    amount := 0.0;
    for k := 0 to |comps|
      invariant r == Pass(items, comps[..k], act)
      invariant amount + KitLossValue(items, comps[k..], aq) == KitLossValue(items, comps, aq)
    {
      assert comps[..k + 1][..k] == comps[..k];
      assert comps[k..] == [comps[k]] + comps[k + 1..];
      KitLossCons(items, comps[k], comps[k + 1..], aq);
      var charge;
      r, charge := LoseStepOn(items, r, comps[k], aq, responsible, now, limit);
      amount := amount + charge;
    }
    assert comps[..|comps|] == comps;
  }

  /** One component of a lost kit: its loss on the running list, and its charge at the price
      of the list the loss started from. */
  method LoseStepOn(items: seq<Item>, r: seq<Item>, c: KitComponent, aq: int, responsible: string, now: int, limit: nat)
    returns (r': seq<Item>, charge: real)
    requires AllKitsReady(r) && SameCatalog(items, r)
    ensures r' == Step(r, c, Lose(aq, responsible, now, limit))
    ensures charge == KitLossValue(items, [c], aq)
  {
    assert [c][1..] == [];
    CatalogIndex(items, r, c.id);
    r', charge := r, 0.0;
    var found := ItemIndex(r, c.id);
    if found.Some? {
      var j := found.value;
      var price := r[j].price;
      var d := DeductIn(r, j, c.quantity * aq);
      d := PrependAt(d, j, HistoryRecord(Loss, c.quantity * aq, now, responsible), limit);
      r' := UpdateAffectedKits(RecalcAt(d, j), c.id);
      charge := Cost(c.quantity * aq, price);
    }
  }

  lemma KitLossCons(items: seq<Item>, c: KitComponent, rest: seq<KitComponent>, aq: int)
    ensures KitLossValue(items, [c] + rest, aq) == KitLossValue(items, [c], aq) + KitLossValue(items, rest, aq)
  {
    assert ([c] + rest)[1..] == rest;
    assert [c][1..] == [];
  }

  /** The value of the lost kits reads only ids and prices. */
  lemma {:induction false} KitLossCatalog(a: seq<Item>, b: seq<Item>, comps: seq<KitComponent>, aq: int)
    requires SameCatalog(a, b)
    ensures KitLossValue(a, comps, aq) == KitLossValue(b, comps, aq)
    decreases |comps|
  {
    if comps != [] {
      KitLossCatalog(a, b, comps[1..], aq);
      CatalogIndex(a, b, comps[0].id);
    }
  }

  method RegisterLoss(w: Warehouse, itemId: string, allocationId: string, reason: string, now: int) returns (ok: bool)
    requires w.Valid()
    modifies w`items, w`debits, w`serviceOrders, w`nextId
    ensures w.Valid()
    ensures var r := LossOutcome(old(w.LedgerOf()), old(w.collaborators), old(w.Settings()), w.historyLimit,
                                 itemId, allocationId, reason, now);
            ok == r.ok && w.LedgerOf() == r.ledger
  {
    var r := RegisterLossOn(w.LedgerOf(), w.collaborators, w.Settings(), w.historyLimit, itemId, allocationId, reason, now);
    w.SaveLedger(r.ledger);
    ok := r.ok;
  }

  /** Losing kits charges what calculateDebitValue values them at: the sum over the
      components found of price times required quantity, times the number of kits. */
  lemma KitLossIsDebitValue(it: Item, alloc: Allocation, items: seq<Item>, policy: string, now: int)
    requires IsKit(it)
    ensures KitLossValue(items, it.kitItems, alloc.quantity) == RawDebitValue(it, alloc, items, policy, now)
    ensures KitLossValue(items, it.kitItems, alloc.quantity) == KitUnitCost(items, it.kitItems) * (alloc.quantity as real)
  {
    KitLossIsCost(items, it.kitItems, alloc.quantity);
    KitRawDebit(it, alloc, items, policy, now);
    CostIsProduct(alloc.quantity, KitUnitCost(items, it.kitItems));
  }

  lemma {:induction false} KitLossIsCost(items: seq<Item>, comps: seq<KitComponent>, aq: int)
    ensures KitLossValue(items, comps, aq) == Cost(aq, KitUnitCost(items, comps))
    decreases |comps|
  {
    if comps != [] {
      KitLossIsCost(items, comps[1..], aq);
      var c := comps[0];
      match ItemIndex(items, c.id)
      case None =>
      case Some(j) => ComponentCost(c.quantity, aq, items[j].price, KitUnitCost(items, comps[1..]));
    } else {
      CostIsProduct(aq, 0.0);
    }
  }

  /** The charge for one component of aq kits, and its share of the kits' value. */
  lemma ComponentCost(q: int, aq: int, price: real, unit: real)
    ensures Cost(q * aq, price) + Cost(aq, unit) == Cost(aq, Cost(q, price) + unit)
  {
    CostNested(q, aq, price);
    CostSplits(aq, Cost(q, price), unit);
  }

  /** Losing an allocation of a simple item: the units leave its batches first-expiring
      first, the count on loan drops by the allocation's quantity (never below zero), the
      allocation leaves the list, a loss record heads the history and the figures agree with
      the batches again; a known collaborator is charged calculateDebitValue when it reaches
      half a cent, and otherwise no debit is made. */
  lemma LossSimple(l: Ledger, cs: seq<Collaborator>, settings: map<string, Value>, limit: nat, itemId: string,
                   allocationId: string, reason: string, now: int, p: nat, a: nat)
    requires AllKitsReady(l.items) && ItemIndex(l.items, itemId) == Some(p) && !IsKit(l.items[p])
    requires AllocationIndex(l.items[p].allocations, allocationId) == Some(a)
    ensures var it := l.items[p];
      var alloc := it.allocations[a];
      var onLoan := Max0(it.onLoanCount - alloc.quantity);
      var bs := FefoDeduct(it.batches, alloc.quantity, it.shelfLifeDays);
      var rec := HistoryRecord(Loss, alloc.quantity, now, CollaboratorName(cs, alloc.collaboratorId));
      var amount := DebitValue(it, alloc, l.items, DebitPolicy(settings), now);
      var r := LossOutcome(l, cs, settings, limit, itemId, allocationId, reason, now);
      r.ok &&
      r.ledger.items[p] == it.(batches := bs, history := Prepend(it.history, rec, limit), onLoanCount := onLoan,
                               allocations := RemoveAt(it.allocations, a),
                               totalStock := Total(bs), currentStock := Max0(Total(bs) - onLoan)) &&
      (amount >= 0.005 && CollaboratorIndex(cs, alloc.collaboratorId).Some? ==>
         r.ledger.debits == [NewDebit(MintId(l.next), Charge(alloc.collaboratorId, it.id, it.name, alloc.quantity,
                                                            amount, reason), now)] + l.debits) &&
      (amount < 0.005 || CollaboratorIndex(cs, alloc.collaboratorId).None? ==> r.ledger.debits == l.debits)
  {
    LossSimpleStock(l.items, p, a, CollaboratorName(cs, l.items[p].allocations[a].collaboratorId), now, limit);
  }

  lemma LossSimpleStock(items: seq<Item>, p: nat, a: nat, responsible: string, now: int, limit: nat)
    requires AllKitsReady(items) && p < |items| && !IsKit(items[p]) && a < |items[p].allocations|
    ensures var it := items[p];
      var alloc := it.allocations[a];
      var onLoan := Max0(it.onLoanCount - alloc.quantity);
      var bs := FefoDeduct(it.batches, alloc.quantity, it.shelfLifeDays);
      LossStock(items, p, a, responsible, now, limit)[p] ==
        it.(batches := bs, history := Prepend(it.history, HistoryRecord(Loss, alloc.quantity, now, responsible), limit),
            onLoanCount := onLoan, allocations := RemoveAt(it.allocations, a),
            totalStock := Total(bs), currentStock := Max0(Total(bs) - onLoan))
  {
    var it := items[p];
    var alloc := it.allocations[a];
    var reduced := Unloaned(items, p, a);
    assert !References(DeductAt(reduced, p, alloc.quantity)[p], it.id);
  }

  /** The allocation a of the kit at p, and the component i of the kit, which resolves to
      the item at j: the components have distinct ids and none is the kit itself. */
  predicate KitLossAt(items: seq<Item>, p: nat, a: nat, i: nat, j: nat)
  {
    AllKitsReady(items) && p < |items| && a < |items[p].allocations| &&
    IsKit(items[p]) && DistinctIds(items[p].kitItems) && i < |items[p].kitItems| &&
    (forall c :: 0 <= c < |items[p].kitItems| ==> items[p].kitItems[c].id != items[p].id) &&
    ItemIndex(items, items[p].kitItems[i].id) == Some(j)
  }

  /** Losing an allocation of a kit takes from each component that resolves the required
      quantity times the number of kits, first-expiring first; the kit's count on loan
      drops by the allocation's quantity (never below zero), the allocation leaves its list
      and a loss record heads its history. */
  lemma LossKit(l: Ledger, cs: seq<Collaborator>, settings: map<string, Value>, limit: nat, itemId: string,
                allocationId: string, reason: string, now: int, p: nat, a: nat, i: nat, j: nat)
    requires ItemIndex(l.items, itemId) == Some(p) && AllocationIndex(l.items[p].allocations, allocationId) == Some(a)
    requires KitLossAt(l.items, p, a, i, j)
    ensures var it := l.items[p];
      var alloc := it.allocations[a];
      var rec := HistoryRecord(Loss, alloc.quantity, now, CollaboratorName(cs, alloc.collaboratorId));
      var r := LossOutcome(l, cs, settings, limit, itemId, allocationId, reason, now);
      r.ok &&
      r.ledger.items[j].batches == FefoDeduct(l.items[j].batches, it.kitItems[i].quantity * alloc.quantity,
                                              l.items[j].shelfLifeDays) &&
      r.ledger.items[p].history == Prepend(it.history, rec, limit) &&
      r.ledger.items[p].onLoanCount == Max0(it.onLoanCount - alloc.quantity) &&
      r.ledger.items[p].allocations == RemoveAt(it.allocations, a)
  {
    LossKitStock(l.items, p, a, CollaboratorName(cs, l.items[p].allocations[a].collaboratorId), now, limit, i, j);
  }

  lemma LossKitStock(items: seq<Item>, p: nat, a: nat, responsible: string, now: int, limit: nat, i: nat, j: nat)
    requires KitLossAt(items, p, a, i, j)
    ensures var it := items[p];
      var alloc := it.allocations[a];
      var r := LossStock(items, p, a, responsible, now, limit);
      r[j].batches == FefoDeduct(items[j].batches, it.kitItems[i].quantity * alloc.quantity, items[j].shelfLifeDays) &&
      r[p].history == Prepend(it.history, HistoryRecord(Loss, alloc.quantity, now, responsible), limit) &&
      r[p].onLoanCount == Max0(it.onLoanCount - alloc.quantity) &&
      r[p].allocations == RemoveAt(it.allocations, a)
  {
    LossKitStockUnfold(items, p, a, responsible, now, limit);
    LossKitAfter(items, p, a, responsible, now, limit, i, j);
  }

  /** The same, on the list the loss of a kit leaves before anything is said about LossStock. */
  lemma LossKitAfter(items: seq<Item>, p: nat, a: nat, responsible: string, now: int, limit: nat, i: nat, j: nat)
    requires KitLossAt(items, p, a, i, j)
    ensures var it := items[p];
      var alloc := it.allocations[a];
      var reduced := Unloaned(items, p, a);
      var rec := HistoryRecord(Loss, alloc.quantity, now, responsible);
      var r := RecalcAt(LossRecorded(Pass(reduced, it.kitItems, Lose(alloc.quantity, responsible, now, limit)), p, a, rec, limit), p);
      r[j].batches == FefoDeduct(items[j].batches, it.kitItems[i].quantity * alloc.quantity, items[j].shelfLifeDays) &&
      r[p].history == Prepend(it.history, rec, limit) &&
      r[p].onLoanCount == Max0(it.onLoanCount - alloc.quantity) &&
      r[p].allocations == RemoveAt(it.allocations, a)
  {
    var it := items[p];
    var alloc := it.allocations[a];
    var reduced := Unloaned(items, p, a);
    var moved := Pass(reduced, it.kitItems, Lose(alloc.quantity, responsible, now, limit));
    LossKitMoved(items, p, a, responsible, now, limit, i, j);
    LossRecordedKeeps(moved, p, a, HistoryRecord(Loss, alloc.quantity, now, responsible), limit, j);
  }

  /** The items after the loss of a kit are those after its components were written off,
      with the record and the allocation change at the kit, recalculated. */
  lemma LossKitStockUnfold(items: seq<Item>, p: nat, a: nat, responsible: string, now: int, limit: nat)
    requires p < |items| && a < |items[p].allocations| && AllKitsReady(items) && IsKit(items[p])
    ensures var it := items[p];
      var alloc := it.allocations[a];
      var reduced := Unloaned(items, p, a);
      var rec := HistoryRecord(Loss, alloc.quantity, now, responsible);
      LossStock(items, p, a, responsible, now, limit) ==
      RecalcAt(LossRecorded(Pass(reduced, it.kitItems, Lose(alloc.quantity, responsible, now, limit)), p, a, rec, limit), p)
  {
    LossStockUnfold(items, p, a, responsible, now, limit);
  }

  lemma LossStockUnfold(items: seq<Item>, p: nat, a: nat, responsible: string, now: int, limit: nat)
    requires p < |items| && a < |items[p].allocations| && AllKitsReady(items)
    ensures var it := items[p];
      var alloc := it.allocations[a];
      var reduced := Unloaned(items, p, a);
      var rec := HistoryRecord(Loss, alloc.quantity, now, responsible);
      LossStock(items, p, a, responsible, now, limit) ==
      RecalcAt(LossRecorded(LossItems(reduced, p, alloc.quantity, responsible, now, limit), p, a, rec, limit), p)
  {
  }

  /** The pass of a lost kit over the list with its count on loan lowered. */
  lemma LossKitMoved(items: seq<Item>, p: nat, a: nat, responsible: string, now: int, limit: nat, i: nat, j: nat)
    requires KitLossAt(items, p, a, i, j)
    ensures var it := items[p];
      var aq := it.allocations[a].quantity;
      var reduced := Unloaned(items, p, a);
      var moved := Pass(reduced, it.kitItems, Lose(aq, responsible, now, limit));
      j != p &&
      moved[j].batches == FefoDeduct(items[j].batches, it.kitItems[i].quantity * aq, items[j].shelfLifeDays) &&
      moved[p].history == it.history && moved[p].onLoanCount == reduced[p].onLoanCount &&
      moved[p].allocations == it.allocations
  {
    var it := items[p];
    var aq := it.allocations[a].quantity;
    var reduced := Unloaned(items, p, a);
    var act := Lose(aq, responsible, now, limit);
    CatalogIndex(items, reduced, it.kitItems[i].id);
    PassDeducts(reduced, it.kitItems, act, i, j);
    PassFrame(reduced, it.kitItems, act, p);
  }

  /** Recording the loss and recalculating the kit leave every other item alone. */
  lemma LossRecordedKeeps(moved: seq<Item>, p: nat, a: nat, rec: HistoryRecord, limit: nat, j: nat)
    requires AllKitsReady(moved) && p < |moved| && a < |moved[p].allocations| && j < |moved| && j != p
    ensures var closed := LossRecorded(moved, p, a, rec, limit);
            RecalcAt(closed, p)[j] == moved[j] &&
            RecalcAt(closed, p)[p].history == Prepend(moved[p].history, rec, limit) &&
            RecalcAt(closed, p)[p].onLoanCount == moved[p].onLoanCount &&
            RecalcAt(closed, p)[p].allocations == RemoveAt(moved[p].allocations, a)
  {
  }

  /** The debit of a lost kit is its components' value times the number of kits, charged
      to a known collaborator when it reaches half a cent; otherwise no debit is made. */
  lemma LossKitCharge(l: Ledger, cs: seq<Collaborator>, settings: map<string, Value>, limit: nat, itemId: string,
                      allocationId: string, reason: string, now: int, p: nat, a: nat)
    requires AllKitsReady(l.items) && ItemIndex(l.items, itemId) == Some(p) && IsKit(l.items[p])
    requires AllocationIndex(l.items[p].allocations, allocationId) == Some(a)
    ensures var it := l.items[p];
      var alloc := it.allocations[a];
      var amount := Cost(alloc.quantity, KitUnitCost(l.items, it.kitItems));
      var r := LossOutcome(l, cs, settings, limit, itemId, allocationId, reason, now);
      r.ok &&
      (amount >= 0.005 && CollaboratorIndex(cs, alloc.collaboratorId).Some? ==>
         r.ledger.debits == [NewDebit(MintId(l.next), Charge(alloc.collaboratorId, it.id, it.name, alloc.quantity,
                                                            amount, reason), now)] + l.debits) &&
      (amount < 0.005 || CollaboratorIndex(cs, alloc.collaboratorId).None? ==> r.ledger.debits == l.debits)
  {
    var it := l.items[p];
    var alloc := it.allocations[a];
    var policy := DebitPolicy(settings);
    LossDebits(l, cs, settings, limit, itemId, allocationId, reason, now, p, a);
    KitLossIsCost(l.items, it.kitItems, alloc.quantity);
  }

  /** The debits registerLoss leaves are those of the charge for the loss value. */
  lemma LossDebits(l: Ledger, cs: seq<Collaborator>, settings: map<string, Value>, limit: nat, itemId: string,
                   allocationId: string, reason: string, now: int, p: nat, a: nat)
    requires AllKitsReady(l.items) && ItemIndex(l.items, itemId) == Some(p)
    requires AllocationIndex(l.items[p].allocations, allocationId) == Some(a)
    ensures var it := l.items[p];
      var alloc := it.allocations[a];
      var r := LossOutcome(l, cs, settings, limit, itemId, allocationId, reason, now);
      r.ok && r.ledger.debits ==
        LossCharge(l, cs, it, alloc, LossAmount(l.items, it, alloc, DebitPolicy(settings), now), reason, now).debits
  {
  }
}
