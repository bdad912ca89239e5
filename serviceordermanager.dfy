/** js/modules/serviceordermanager.js, the operations that do not move stock: opening,
    editing and deleting orders and marking a line returned. */
module ServiceOrderManager {
  import opened Common
  import opened Config
  import opened Items
  import opened Store

  const OpenStatus: string := "Aberta"
  const ClosedStatus: string := "Fechada"

  /** `OS-${Date.now()}` */
  function OrderId(now: nat): string
  {
    "OS-" + NatToString(now)
  }

  /** addServiceOrder: a new open order without lines goes to the front of the list. */
  method AddServiceOrder(w: Warehouse, customer: string, technicianId: string, description: string, now: nat)
    returns (o: ServiceOrder)
    modifies w`serviceOrders
    ensures o == ServiceOrder(OrderId(now), Trim(customer), OpenStatus, now, None, technicianId, Trim(description), [])
    ensures w.serviceOrders == [o] + old(w.serviceOrders)
  {
    o := ServiceOrder(OrderId(now), Trim(customer), OpenStatus, now, None, technicianId, Trim(description), []);
    w.serviceOrders := [o] + w.serviceOrders;
  }

  /** The edited order: new customer, status, technician and description; the id, the
      lines and the opening date are kept, and the close date is stamped only when the order
      passes from another status to closed. These are all the fields of an order. */
  function Edited(o: ServiceOrder, customer: string, status: string, technicianId: string, description: string, now: int)
    : (r: ServiceOrder)
    ensures r.id == o.id && r.lines == o.lines && r.openDate == o.openDate
    ensures r.status == status && r.customer == Trim(customer) && r.description == Trim(description)
    ensures r.technicianId == technicianId
    ensures r.closeDate != o.closeDate ==> o.status != ClosedStatus && status == ClosedStatus
    ensures o.status != ClosedStatus && status == ClosedStatus ==> r.closeDate == Some(now)
  {
    var e := o.(customer := Trim(customer), status := status, technicianId := technicianId, description := Trim(description));
    if o.status != ClosedStatus && status == ClosedStatus then e.(closeDate := Some(now)) else e
  }

  method UpdateServiceOrder(w: Warehouse, id: string, customer: string, status: string, technicianId: string,
                            description: string, now: int)
    returns (r: Option<ServiceOrder>)
    modifies w`serviceOrders
    ensures r.None? <==> OrderIndex(old(w.serviceOrders), id).None?
    ensures r.None? ==> w.serviceOrders == old(w.serviceOrders)
    ensures r.Some? ==>
      var k := OrderIndex(old(w.serviceOrders), id).value;
      r.value == Edited(old(w.serviceOrders)[k], customer, status, technicianId, description, now) &&
      w.serviceOrders == old(w.serviceOrders)[k := r.value]
  {
    var k := OrderIndex(w.serviceOrders, id);
    if k.None? {
      return None;
    }
    var o := Edited(w.serviceOrders[k.value], customer, status, technicianId, description, now);
    w.serviceOrders := w.serviceOrders[k.value := o];
    r := Some(o);
  }

  /** A line whose item is returnable (or a kit) and has not come back. */
  predicate Pending(line: OrderLine, items: seq<Item>, returnableTypes: seq<string>)
  {
    match ItemIndex(items, line.itemId)
    case None => false
    case Some(k) => (items[k].itemType in returnableTypes || IsKit(items[k])) && !line.returned
  }

  predicate HasPending(o: ServiceOrder, items: seq<Item>, returnableTypes: seq<string>)
  {
    exists k :: 0 <= k < |o.lines| && Pending(o.lines[k], items, returnableTypes)
  }

  function WithoutOrder(os: seq<ServiceOrder>, id: string): (r: seq<ServiceOrder>)
    ensures forall k :: 0 <= k < |r| ==> r[k].id != id && r[k] in os
    ensures forall k :: 0 <= k < |os| && os[k].id != id ==> os[k] in r
  {
    Filter(os, (o: ServiceOrder) => o.id != id)
  }

  /** deleteServiceOrder: refused for an unknown order and for one with a pending line;
      otherwise only that order leaves the list. */
  method DeleteServiceOrder(w: Warehouse, id: string) returns (ok: bool)
    modifies w`serviceOrders
    ensures ok <==> OrderIndex(old(w.serviceOrders), id).Some? &&
                    !HasPending(old(w.serviceOrders)[OrderIndex(old(w.serviceOrders), id).value],
                                w.items, ReturnableTypes(w.Settings()))
    ensures ok ==> w.serviceOrders == WithoutOrder(old(w.serviceOrders), id)
    ensures !ok ==> w.serviceOrders == old(w.serviceOrders)
  {
    ok := DeleteServiceOrderAs(w, id, ReturnableTypes(w.Settings()));
  }

  /** deleteServiceOrder once the returnable types have been read from the settings. */
  method DeleteServiceOrderAs(w: Warehouse, id: string, returnables: seq<string>) returns (ok: bool)
    modifies w`serviceOrders
    ensures ok <==> OrderIndex(old(w.serviceOrders), id).Some? &&
                    !HasPending(old(w.serviceOrders)[OrderIndex(old(w.serviceOrders), id).value], w.items, returnables)
    ensures ok ==> w.serviceOrders == WithoutOrder(old(w.serviceOrders), id)
    ensures !ok ==> w.serviceOrders == old(w.serviceOrders)
  {
    var k := OrderIndex(w.serviceOrders, id);
    if k.None? {
      return false;
    }
    var o := w.serviceOrders[k.value];
    var i := 0;
    while i < |o.lines|
      invariant 0 <= i <= |o.lines|
      invariant forall j :: 0 <= j < i ==> !Pending(o.lines[j], w.items, returnables)
    {
      if Pending(o.lines[i], w.items, returnables) {
        return false;
      }
      i := i + 1;
    }
    w.serviceOrders := WithoutOrder(w.serviceOrders, id);
    ok := true;
  }

  function LineIndex(lines: seq<OrderLine>, allocationId: string): (r: Option<nat>)
    ensures r.Some? ==> r.value < |lines| && lines[r.value].allocationId == allocationId
    ensures r.None? ==> forall k :: 0 <= k < |lines| ==> lines[k].allocationId != allocationId
  {
    FirstIndex(lines, (l: OrderLine) => l.allocationId == allocationId)
  }

  /** returnItemFromGeneralAllocation on the list: None (false) for an unknown order; an
      unknown line leaves the list as it is (true); otherwise that line is marked returned. */
  function MarkReturned(os: seq<ServiceOrder>, osId: string, allocationId: string, now: int)
    : (r: Option<seq<ServiceOrder>>)
    ensures r.None? <==> OrderIndex(os, osId).None?
    ensures r.Some? ==> |r.value| == |os|
    ensures r.Some? && LineIndex(os[OrderIndex(os, osId).value].lines, allocationId).None? ==> r.value == os
    ensures r.Some? && LineIndex(os[OrderIndex(os, osId).value].lines, allocationId).Some? ==>
      var k := OrderIndex(os, osId).value;
      var j := LineIndex(os[k].lines, allocationId).value;
      r.value == os[k := os[k].(lines := os[k].lines[j := os[k].lines[j].(returned := true, returnDate := Some(now))])]
  {
    match OrderIndex(os, osId)
    case None => None
    case Some(k) =>
      match LineIndex(os[k].lines, allocationId)
      case None => Some(os)
      case Some(j) =>
        Some(os[k := os[k].(lines := os[k].lines[j := os[k].lines[j].(returned := true, returnDate := Some(now))])])
  }

  /** After marking, the line is returned and no other line of any order changed. */
  lemma MarkReturnedMarks(os: seq<ServiceOrder>, osId: string, allocationId: string, now: int)
    requires OrderIndex(os, osId).Some?
    requires LineIndex(os[OrderIndex(os, osId).value].lines, allocationId).Some?
    ensures var k := OrderIndex(os, osId).value;
            var j := LineIndex(os[k].lines, allocationId).value;
            var r := MarkReturned(os, osId, allocationId, now).value;
            r[k].lines[j].returned && r[k].lines[j].returnDate == Some(now) &&
            |r[k].lines| == |os[k].lines| &&
            (forall i :: 0 <= i < |os| && i != k ==> r[i] == os[i]) &&
            (forall i :: 0 <= i < |os[k].lines| && i != j ==> r[k].lines[i] == os[k].lines[i])
  {
  }

  method ReturnItemFromGeneralAllocation(w: Warehouse, osId: string, allocationId: string, now: int) returns (ok: bool)
    modifies w`serviceOrders
    ensures ok <==> MarkReturned(old(w.serviceOrders), osId, allocationId, now).Some?
    ensures ok ==> w.serviceOrders == MarkReturned(old(w.serviceOrders), osId, allocationId, now).value
    ensures !ok ==> w.serviceOrders == old(w.serviceOrders)
  {
    var k := OrderIndex(w.serviceOrders, osId);
    if k.None? {
      return false;
    }
    var o := w.serviceOrders[k.value];
    var j := LineIndex(o.lines, allocationId);
    if j.None? {
      return true;
    }
    var line := o.lines[j.value].(returned := true, returnDate := Some(now));
    w.serviceOrders := w.serviceOrders[k.value := o.(lines := o.lines[j.value := line])];
    ok := true;
  }
}
