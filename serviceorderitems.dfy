/** js/modules/serviceordermanager.js, the operations that move stock: adding an item to an
    order (allocateItemToServiceOrder followed by a new line) and returning a line to stock
    (returnAllocation). */
module ServiceOrderItems {
  import opened Common
  import opened Config
  import opened Items
  import opened Store
  import opened ServiceOrderManager
  import opened StockControl

  /** The line addItemToServiceOrder appends: not yet returned. */
  function NewLine(itemId: string, q: int, allocationId: string, now: int): OrderLine
  {
    OrderLine(itemId, q, now, allocationId, false, None)
  }

  /** The order at k with one more line at the end; every other order as it was. */
  function WithLine(os: seq<ServiceOrder>, k: nat, line: OrderLine): (r: seq<ServiceOrder>)
    requires k < |os|
    ensures |r| == |os| && r[k].lines == os[k].lines + [line] && r[k] == os[k].(lines := r[k].lines)
    ensures forall i :: 0 <= i < |os| && i != k ==> r[i] == os[i]
  {
    os[k := os[k].(lines := os[k].lines + [line])]
  }

  /** addItemToServiceOrder: false for an unknown order or item; otherwise an allocation id
      is drawn and, when allocateItemToServiceOrder succeeds with it, a line for it is
      appended to the order. */
  function AddItemOutcome(l: Ledger, cs: seq<Collaborator>, settings: map<string, Value>, limit: nat,
                          osId: string, itemId: string, quantity: int, now: int): (r: Outcome)
    requires AllKitsReady(l.items)
    ensures AllKitsReady(r.ledger.items) && r.ledger.debits == l.debits
    ensures r.ok <==> OrderAllocationAllowed(l.items, l.orders, osId, itemId, quantity)
    ensures !r.ok ==> r.ledger.items == l.items && r.ledger.orders == l.orders
    ensures r.ok ==>
      var drawn := l.(next := l.next + 1);
      var k := OrderIndex(l.orders, osId).value;
      r.ledger.next == l.next + 1 &&
      r.ledger.orders == WithLine(l.orders, k, NewLine(itemId, quantity, MintId(l.next), now)) &&
      r.ledger.items == OrderAllocationOutcome(drawn, cs, settings, limit, osId, itemId, quantity, MintId(l.next), now).ledger.items
  {
    if OrderIndex(l.orders, osId).None? || ItemIndex(l.items, itemId).None? then Outcome(false, l)
    else
      var allocationId := MintId(l.next);
      var drawn := l.(next := l.next + 1);
      var a := OrderAllocationOutcome(drawn, cs, settings, limit, osId, itemId, quantity, allocationId, now);
      if !a.ok then a
      else
        var k := OrderIndex(l.orders, osId).value;
        Outcome(true, a.ledger.(orders := WithLine(a.ledger.orders, k, NewLine(itemId, quantity, allocationId, now))))
  }

  method AddItemToServiceOrderOn(l: Ledger, cs: seq<Collaborator>, settings: map<string, Value>, limit: nat,
                                 osId: string, itemId: string, quantity: int, now: int) returns (r: Outcome)
    requires AllKitsReady(l.items)
    ensures r == AddItemOutcome(l, cs, settings, limit, osId, itemId, quantity, now)
  {
    var k := OrderIndex(l.orders, osId);
    if k.None? {
      return Outcome(false, l);
    }
    if ItemIndex(l.items, itemId).None? {
      return Outcome(false, l);
    }
    var allocationId := MintId(l.next);
    var a := AllocateItemToServiceOrderOn(l.(next := l.next + 1), cs, settings, limit, osId, itemId, quantity,
                                          allocationId, now);
    if !a.ok {
      return a;
    }
    var o := a.ledger.orders[k.value];
    r := Outcome(true, a.ledger.(orders := a.ledger.orders[k.value := o.(lines := o.lines + [NewLine(itemId, quantity, allocationId, now)])]));
  }

  method AddItemToServiceOrder(w: Warehouse, osId: string, itemId: string, quantity: int, now: int) returns (ok: bool)
    requires w.Valid()
    modifies w`items, w`debits, w`serviceOrders, w`nextId
    ensures w.Valid()
    ensures var r := AddItemOutcome(old(w.LedgerOf()), old(w.collaborators), old(w.Settings()), w.historyLimit,
                                    osId, itemId, quantity, now);
            ok == r.ok && w.LedgerOf() == r.ledger
  {
    var r := AddItemToServiceOrderOn(w.LedgerOf(), w.collaborators, w.Settings(), w.historyLimit, osId, itemId, quantity, now);
    w.SaveLedger(r.ledger);
    ok := r.ok;
  }

  /** For a simple item that is lent, the new line and the new allocation share the id drawn:
      the line is open for the item and quantity, and the item's loans rise by that quantity. */
  lemma AddItemLinksAllocation(l: Ledger, cs: seq<Collaborator>, settings: map<string, Value>, limit: nat,
                               osId: string, itemId: string, quantity: int, now: int)
    requires AllKitsReady(l.items) && OrderAllocationAllowed(l.items, l.orders, osId, itemId, quantity)
    requires !IsKit(l.items[ItemIndex(l.items, itemId).value])
    requires IsLoanItem(settings, l.items[ItemIndex(l.items, itemId).value])
    ensures var r := AddItemOutcome(l, cs, settings, limit, osId, itemId, quantity, now).ledger;
      var p := ItemIndex(l.items, itemId).value;
      var k := OrderIndex(l.orders, osId).value;
      var line := r.orders[k].lines[|l.orders[k].lines|];
      line == NewLine(itemId, quantity, MintId(l.next), now) &&
      r.items[p].allocations == l.items[p].allocations +
        [OrderAllocation(MintId(l.next), quantity, l.orders[k].technicianId, now, osId)] &&
      r.items[p].onLoanCount == l.items[p].onLoanCount + quantity
  {
    var p := ItemIndex(l.items, itemId).value;
    var k := OrderIndex(l.orders, osId).value;
    var tech := l.orders[k].technicianId;
    var alloc := OrderAllocation(MintId(l.next), quantity, tech, now, osId);
    LendSimple(l.items, p, quantity, alloc, TechnicianName(cs, tech), now, false, limit);
  }

  // ---- returnItemToStockFromOS ----

  /** The checks of returnItemToStockFromOS before it calls returnAllocation: a known order
      holding a line for the allocation that is not yet returned. */
  predicate LineOpen(os: seq<ServiceOrder>, osId: string, allocationId: string)
  {
    OrderIndex(os, osId).Some? &&
    LineIndex(os[OrderIndex(os, osId).value].lines, allocationId).Some? &&
    !os[OrderIndex(os, osId).value].lines[LineIndex(os[OrderIndex(os, osId).value].lines, allocationId).value].returned
  }

  function LineOf(os: seq<ServiceOrder>, osId: string, allocationId: string): OrderLine
    requires LineOpen(os, osId, allocationId)
  {
    os[OrderIndex(os, osId).value].lines[LineIndex(os[OrderIndex(os, osId).value].lines, allocationId).value]
  }

  /** returnItemToStockFromOS: refused without change for an unknown order or line and for a
      line already returned; otherwise a full return (no losses) of the allocation. */
  function ReturnToStockOutcome(l: Ledger, cs: seq<Collaborator>, limit: nat, osId: string, allocationId: string,
                                now: int): (r: Outcome)
    requires AllKitsReady(l.items)
    ensures AllKitsReady(r.ledger.items)
    ensures r.ok <==> LineOpen(l.orders, osId, allocationId) &&
                      ReturnAllowed(l, LineOf(l.orders, osId, allocationId).itemId, allocationId)
    ensures !r.ok ==> r.ledger == l
    ensures LineOpen(l.orders, osId, allocationId) ==>
      r == ReturnOutcome(l, cs, limit, LineOf(l.orders, osId, allocationId).itemId, allocationId, [], now)
  {
    if !LineOpen(l.orders, osId, allocationId) then Outcome(false, l)
    else ReturnOutcome(l, cs, limit, LineOf(l.orders, osId, allocationId).itemId, allocationId, [], now)
  }

  method ReturnItemToStockFromOS(w: Warehouse, osId: string, allocationId: string, now: int) returns (ok: bool)
    requires w.Valid()
    modifies w`items, w`debits, w`serviceOrders, w`nextId
    ensures w.Valid()
    ensures var r := ReturnToStockOutcome(old(w.LedgerOf()), old(w.collaborators), w.historyLimit, osId, allocationId, now);
            ok == r.ok && w.LedgerOf() == r.ledger
  {
    var k := OrderIndex(w.serviceOrders, osId);
    if k.None? {
      return false;
    }
    var j := LineIndex(w.serviceOrders[k.value].lines, allocationId);
    if j.None? {
      return false;
    }
    var line := w.serviceOrders[k.value].lines[j.value];
    if line.returned {
      return false;
    }
    ok := ReturnAllocation(w, line.itemId, allocationId, [], now);
  }

  /** A line returned to stock whose allocation belongs to that order is marked returned,
      so a second return of the same line is refused. */
  lemma ReturnToStockOnce(l: Ledger, cs: seq<Collaborator>, limit: nat, osId: string, allocationId: string,
                          now: int, later: int)
    requires AllKitsReady(l.items)
    requires ReturnToStockOutcome(l, cs, limit, osId, allocationId, now).ok
    requires var itemId := LineOf(l.orders, osId, allocationId).itemId;
      var p := ItemIndex(l.items, itemId).value;
      OrderOf(l.items[p].allocations[AllocationIndex(l.items[p].allocations, allocationId).value]) == Some(osId)
    ensures var r := ReturnToStockOutcome(l, cs, limit, osId, allocationId, now).ledger;
      !ReturnToStockOutcome(r, cs, limit, osId, allocationId, later).ok
  {
    var itemId := LineOf(l.orders, osId, allocationId).itemId;
    ReturnMarksOrder(l, cs, limit, itemId, allocationId, [], now);
    MarkReturnedMarks(l.orders, osId, allocationId, now);
    var r := ReturnToStockOutcome(l, cs, limit, osId, allocationId, now).ledger;
    var k := OrderIndex(l.orders, osId).value;
    assert OrderIndex(r.orders, osId) == Some(k);
    var j := LineIndex(l.orders[k].lines, allocationId).value;
    assert LineIndex(r.orders[k].lines, allocationId) == Some(j);
  }
}
