/** js/modules/stockcontrol.js, the operations that change the stock without a loan: a
    direct loss or discard, a physical count, a stock entry and the replacement of expired
    units. As in StockControl, each is a function of the state before it, a method with the
    source's steps proved equal to that function, and lemmas for what the operation promises. */
module StockCounts {
  import opened Common
  import opened Batches
  import opened Items
  import opened Store
  import opened DebitManager
  import opened StockControl

  // ---- registerDirectLoss ----

  const DirectLossReason: string := "Perda/Descarte Direto: "

  /** The charge of a direct loss: the quantity at the item's price, under the direct-loss
      reason. */
  function DiscardCharge(it: Item, q: int, collaboratorId: string, reason: string): (c: Charge)
    ensures c.collaboratorId == collaboratorId && c.itemId == it.id && c.itemName == it.name
    ensures c.quantity == q && c.amount == Cost(q, it.price) && c.reason == DirectLossReason + reason
  {
    Charge(collaboratorId, it.id, it.name, q, Cost(q, it.price), DirectLossReason + reason)
  }

  /** The amount charged is the quantity times the price. */
  lemma DiscardChargeAmount(it: Item, q: int, collaboratorId: string, reason: string)
    ensures DiscardCharge(it, q, collaboratorId, reason).amount == q as real * it.price
  {
    CostIsProduct(q, it.price);
  }

  /** The debit of a direct loss goes to the named collaborator when the value is positive;
      addDebit records it when it reaches half a cent. Nothing checks that a collaborator
      with that id exists. */
  function DiscardDebit(l: Ledger, c: Charge, now: int): (r: Ledger)
    ensures r.items == l.items && r.orders == l.orders
    ensures c.amount >= 0.005 && c.collaboratorId != "" ==>
      r.debits == [NewDebit(MintId(l.next), c, now)] + l.debits && r.next == l.next + 1
    ensures c.amount < 0.005 || c.collaboratorId == "" ==> r == l
  {
    if c.amount > 0.0 && c.collaboratorId != "" then PostDebit(l, c, now) else l
  }

  /** What a direct loss does to the items: a discard record heads the history of the item
      at p (cut to the limit), q units leave its batches first-expiring first, and the item
      and then the kits that use it are recalculated. */
  function DiscardStock(items: seq<Item>, p: nat, q: int, responsible: string, now: int, limit: nat): (r: seq<Item>)
    requires p < |items| && AllKitsReady(items)
    ensures AllKitsReady(r) && SameCatalog(items, r) && SameLoans(items, r)
  {
    RefreshAt(DeductAt(PrependAt(items, p, HistoryRecord(Discard, q, now, responsible), limit), p, q), p)
  }

  /** The checks of registerDirectLoss: a known item and a positive quantity no larger than
      its total stock. */
  predicate DiscardAllowed(items: seq<Item>, itemId: string, q: int)
  {
    ItemIndex(items, itemId).Some? && q > 0 && items[ItemIndex(items, itemId).value].totalStock >= q
  }

  /** registerDirectLoss: refused without any change unless the checks pass. The
      collaborator id is "" when none is given. */
  function DirectLossOutcome(l: Ledger, limit: nat, itemId: string, q: int, reason: string, responsible: string,
                             collaboratorId: string, now: int): (r: Outcome)
    requires AllKitsReady(l.items)
    ensures AllKitsReady(r.ledger.items) && SameCatalog(l.items, r.ledger.items) && r.ledger.orders == l.orders
    ensures r.ok <==> DiscardAllowed(l.items, itemId, q)
    ensures !r.ok ==> r.ledger == l
  {
    match ItemIndex(l.items, itemId)
    case None => Outcome(false, l)
    case Some(p) =>
      if q <= 0 || l.items[p].totalStock < q then Outcome(false, l)
      else
        var charged := DiscardDebit(l, DiscardCharge(l.items[p], q, collaboratorId, reason), now);
        Outcome(true, charged.(items := DiscardStock(l.items, p, q, responsible, now, limit)))
  }

  method RegisterDirectLossOn(l: Ledger, limit: nat, itemId: string, q: int, reason: string, responsible: string,
                              collaboratorId: string, now: int) returns (r: Outcome)
    requires AllKitsReady(l.items)
    ensures r == DirectLossOutcome(l, limit, itemId, q, reason, responsible, collaboratorId, now)
  {
    var found := ItemIndex(l.items, itemId);
    if found.None? || q <= 0 || l.items[found.value].totalStock < q {
      return Outcome(false, l);
    }
    var p := found.value;
    var it := l.items[p];
    var items := PrependAt(l.items, p, HistoryRecord(Discard, q, now, responsible), limit);
    var charged := DiscardDebit(l, DiscardCharge(it, q, collaboratorId, reason), now);
    items := DeductIn(items, p, q);
    items := RefreshAt(items, p);
    r := Outcome(true, charged.(items := items));
  }

  method RegisterDirectLoss(w: Warehouse, itemId: string, quantity: int, reason: string, responsible: string,
                            collaboratorId: string, now: int) returns (ok: bool)
    requires w.Valid()
    modifies w`items, w`debits, w`serviceOrders, w`nextId
    ensures w.Valid()
    ensures var r := DirectLossOutcome(old(w.LedgerOf()), w.historyLimit, itemId, quantity, reason, responsible,
                                       collaboratorId, now);
            ok == r.ok && w.LedgerOf() == r.ledger
  {
    var r := RegisterDirectLossOn(w.LedgerOf(), w.historyLimit, itemId, quantity, reason, responsible,
                                  collaboratorId, now);
    w.SaveLedger(r.ledger);
    ok := r.ok;
  }

  /** A direct loss of a simple item takes q units from its batches first-expiring first,
      max(0, total - q) units remain, the figures follow the batches and the loans are
      untouched; only the kits that use the item may change besides it. */
  lemma DiscardSimple(items: seq<Item>, p: nat, q: int, responsible: string, now: int, limit: nat)
    requires p < |items| && AllKitsReady(items) && !IsKit(items[p])
    requires NonNegative(items[p].batches) && q >= 0
    ensures var r := DiscardStock(items, p, q, responsible, now, limit);
      var it := items[p];
      r[p].batches == FefoDeduct(it.batches, q, it.shelfLifeDays) &&
      Total(r[p].batches) == Max0(Total(it.batches) - q) &&
      r[p].totalStock == Total(r[p].batches) &&
      r[p].currentStock == Max0(Total(r[p].batches) - it.onLoanCount) &&
      r[p].history == Prepend(it.history, HistoryRecord(Discard, q, now, responsible), limit) &&
      r[p].onLoanCount == it.onLoanCount && r[p].allocations == it.allocations &&
      forall k :: 0 <= k < |items| && k != p && !References(items[k], it.id) ==> r[k] == items[k]
  {
    FefoTotal(items[p].batches, q, items[p].shelfLifeDays);
  }

  /** An allowed direct loss leaves the items DiscardStock gives; the debit is the quantity
      at the price, made when it reaches half a cent and a collaborator is named. */
  lemma DirectLossCharges(l: Ledger, limit: nat, itemId: string, q: int, reason: string, responsible: string,
                          collaboratorId: string, now: int, p: nat)
    requires AllKitsReady(l.items) && ItemIndex(l.items, itemId) == Some(p)
    requires q > 0 && l.items[p].totalStock >= q
    ensures var it := l.items[p];
      var c := DiscardCharge(it, q, collaboratorId, reason);
      var r := DirectLossOutcome(l, limit, itemId, q, reason, responsible, collaboratorId, now);
      r.ok && r.ledger.items == DiscardStock(l.items, p, q, responsible, now, limit) &&
      (c.amount >= 0.005 && collaboratorId != "" ==>
         r.ledger.debits == [NewDebit(MintId(l.next), c, now)] + l.debits && r.ledger.next == l.next + 1) &&
      (c.amount < 0.005 || collaboratorId == "" ==> r.ledger.debits == l.debits && r.ledger.next == l.next)
  {
  }

  // ---- adjustStockCount ----

  /** The record kind the reason of a count selects; any other reason is an adjustment. */
  function CountKind(reason: string): (k: HistoryKind)
    ensures k == Entry <==> reason == "entry_no_reg"
    ensures k == Return <==> reason == "return_no_reg"
    ensures k == Exit <==> reason == "exit_no_reg"
    ensures k == Loss <==> reason == "loss_damage"
    ensures k.Adjustment? || k.Entry? || k.Return? || k.Exit? || k.Loss?
  {
    if reason == "entry_no_reg" then Entry
    else if reason == "return_no_reg" then Return
    else if reason == "exit_no_reg" then Exit
    else if reason == "loss_damage" then Loss
    else Adjustment
  }

  /** The counted units less the physical stock on record (the total less what is on loan). */
  function Difference(it: Item, count: int): int
  {
    count - (it.totalStock - it.onLoanCount)
  }

  /** The batch a count that finds more units creates: bought today, with no shelf life of
      its own. */
  function CountBatch(id: string, q: int, now: int): Batch
  {
    Batch(id, q, Day(DayOf(now)), Absent, 0, false)
  }

  /** The batch the found units go to: the one named, when a name other than "new" is given
      and the item has a batch with it. */
  function TargetBatch(it: Item, batchId: string): (r: Option<nat>)
    ensures r.Some? ==> batchId != "" && batchId != "new" && r.value < |it.batches| && it.batches[r.value].id == batchId
    ensures r.None? && batchId != "" && batchId != "new" ==> forall k :: 0 <= k < |it.batches| ==> it.batches[k].id != batchId
  {
    if batchId == "" || batchId == "new" then None else BatchIndex(it.batches, batchId)
  }

  /** existingBatch.quantity += d on batch b of the item at p. */
  function GrowAt(items: seq<Item>, p: nat, b: nat, d: int): (r: seq<Item>)
    requires p < |items| && b < |items[p].batches|
    ensures SameCatalog(items, r) && SameLoans(items, r) && (AllKitsReady(items) ==> AllKitsReady(r))
    ensures |r| == |items| && forall k :: 0 <= k < |items| && k != p ==> r[k] == items[k]
    ensures var bs := items[p].batches;
            r[p] == items[p].(batches := bs[b := bs[b].(quantity := bs[b].quantity + d)])
  {
    var bs := items[p].batches;
    items[p := items[p].(batches := bs[b := bs[b].(quantity := bs[b].quantity + d)])]
  }

  /** Found units: added to the target batch, or pushed as a new batch with a fresh id. */
  function Gain(l: Ledger, p: nat, d: int, batchId: string, now: int): (r: Ledger)
    requires p < |l.items|
    ensures r.debits == l.debits && r.orders == l.orders
    ensures SameCatalog(l.items, r.items) && SameLoans(l.items, r.items)
    ensures AllKitsReady(l.items) ==> AllKitsReady(r.items)
  {
    match TargetBatch(l.items[p], batchId)
    case Some(b) => l.(items := GrowAt(l.items, p, b, d))
    case None => l.(items := PushBatchAt(l.items, p, CountBatch(MintId(l.next), d, now)), next := l.next + 1)
  }

  /** The stock change of a count with difference d: none when d is 0; otherwise found units
      are gained or missing ones deducted first-expiring first, and the item and then the
      kits that use it are recalculated. */
  function Counted(l: Ledger, p: nat, d: int, batchId: string, now: int): (r: Ledger)
    requires p < |l.items| && AllKitsReady(l.items)
    ensures AllKitsReady(r.items) && SameCatalog(l.items, r.items) && SameLoans(l.items, r.items)
    ensures r.debits == l.debits && r.orders == l.orders
  {
    if d == 0 then l
    else
      var changed := if d > 0 then Gain(l, p, d, batchId, now) else l.(items := DeductAt(l.items, p, -d));
      changed.(items := RefreshAt(changed.items, p))
  }

  /** adjustStockCount: refused without any change for an unknown item or a negative
      count; otherwise a record of the difference heads the history (even when it is 0) and
      the stock follows the count. The batch id is "" when none is given. */
  function CountOutcome(l: Ledger, limit: nat, itemId: string, count: int, responsible: string, reason: string,
                        batchId: string, now: int): (r: Outcome)
    requires AllKitsReady(l.items)
    ensures AllKitsReady(r.ledger.items) && SameCatalog(l.items, r.ledger.items) && SameLoans(l.items, r.ledger.items)
    ensures r.ledger.debits == l.debits && r.ledger.orders == l.orders
    ensures r.ok <==> ItemIndex(l.items, itemId).Some? && count >= 0
    ensures !r.ok ==> r.ledger == l
  {
    match ItemIndex(l.items, itemId)
    case None => Outcome(false, l)
    case Some(p) =>
      if count < 0 then Outcome(false, l)
      else
        var d := Difference(l.items[p], count);
        var recorded := l.(items := PrependAt(l.items, p, HistoryRecord(CountKind(reason), d, now, responsible), limit));
        Outcome(true, Counted(recorded, p, d, batchId, now))
  }

  method AdjustStockCountOn(l: Ledger, limit: nat, itemId: string, count: int, responsible: string, reason: string,
                            batchId: string, now: int) returns (r: Outcome)
    requires AllKitsReady(l.items)
    ensures r == CountOutcome(l, limit, itemId, count, responsible, reason, batchId, now)
  {
    var found := ItemIndex(l.items, itemId);
    if found.None? || count < 0 {
      return Outcome(false, l);
    }
    var p := found.value;
    var d := Difference(l.items[p], count);
    var cur := l.(items := PrependAt(l.items, p, HistoryRecord(CountKind(reason), d, now, responsible), limit));
    if d == 0 {
      return Outcome(true, cur);
    }
    var before := cur;
    if d > 0 {
      var target := TargetBatch(cur.items[p], batchId);
      if target.Some? {
        cur := cur.(items := GrowAt(cur.items, p, target.value, d));
      } else {
        var id := MintId(cur.next);
        cur := cur.(items := PushBatchAt(cur.items, p, CountBatch(id, d, now)), next := cur.next + 1);
      }
    } else {
      var items := DeductIn(cur.items, p, -d);
      cur := cur.(items := items);
    }
    cur := cur.(items := RefreshAt(cur.items, p));
    r := Outcome(true, cur);
    assert cur == Counted(before, p, d, batchId, now);
  }

  method AdjustStockCount(w: Warehouse, itemId: string, count: int, responsible: string, reason: string,
                          batchId: string, now: int) returns (ok: bool)
    requires w.Valid()
    modifies w`items, w`debits, w`serviceOrders, w`nextId
    ensures w.Valid()
    ensures var r := CountOutcome(old(w.LedgerOf()), w.historyLimit, itemId, count, responsible, reason, batchId, now);
            ok == r.ok && w.LedgerOf() == r.ledger
  {
    var r := AdjustStockCountOn(w.LedgerOf(), w.historyLimit, itemId, count, responsible, reason, batchId, now);
    w.SaveLedger(r.ledger);
    ok := r.ok;
  }

  /** After a count of a simple item whose figures agree with its batches, the physical
      stock (total less what is on loan) is the count, in the figures and in the batches;
      the record of the difference heads the history and the loans are untouched. */
  lemma CountSimple(l: Ledger, limit: nat, itemId: string, count: int, responsible: string, reason: string,
                    batchId: string, now: int, p: nat)
    requires AllKitsReady(l.items) && ItemIndex(l.items, itemId) == Some(p) && !IsKit(l.items[p])
    requires NonNegative(l.items[p].batches) && l.items[p].totalStock == Total(l.items[p].batches)
    requires l.items[p].onLoanCount >= 0 && count >= 0
    ensures var it := l.items[p];
      var r := CountOutcome(l, limit, itemId, count, responsible, reason, batchId, now);
      var after := r.ledger.items[p];
      r.ok &&
      after.totalStock - after.onLoanCount == count &&
      Total(after.batches) - after.onLoanCount == count &&
      after.history == Prepend(it.history, HistoryRecord(CountKind(reason), Difference(it, count), now, responsible), limit) &&
      after.onLoanCount == it.onLoanCount && after.allocations == it.allocations
  {
    var it := l.items[p];
    var d := Difference(it, count);
    var recorded := l.(items := PrependAt(l.items, p, HistoryRecord(CountKind(reason), d, now, responsible), limit));
    CountSimpleStock(recorded, p, d, batchId, now);
  }

  /** The stock part of CountSimple, on the list with the record already prepended. */
  lemma CountSimpleStock(l: Ledger, p: nat, d: int, batchId: string, now: int)
    requires AllKitsReady(l.items) && p < |l.items| && !IsKit(l.items[p])
    requires NonNegative(l.items[p].batches) && l.items[p].totalStock == Total(l.items[p].batches)
    requires l.items[p].onLoanCount >= 0 && d + l.items[p].totalStock - l.items[p].onLoanCount >= 0
    ensures var it := l.items[p];
      var after := Counted(l, p, d, batchId, now).items[p];
      after.totalStock == it.totalStock + d && Total(after.batches) == it.totalStock + d &&
      after.history == it.history && after.onLoanCount == it.onLoanCount && after.allocations == it.allocations
  {
    if d > 0 {
      CountGain(l, p, d, batchId, now);
    } else if d < 0 {
      CountDeduct(l, p, d, batchId, now);
    }
  }

  /** Found units raise the total of a simple item's batches by the difference. */
  lemma CountGain(l: Ledger, p: nat, d: int, batchId: string, now: int)
    requires AllKitsReady(l.items) && p < |l.items| && !IsKit(l.items[p]) && d > 0
    ensures var it := l.items[p];
      var after := Counted(l, p, d, batchId, now).items[p];
      after.totalStock == Total(it.batches) + d && Total(after.batches) == Total(it.batches) + d &&
      after.history == it.history && after.onLoanCount == it.onLoanCount && after.allocations == it.allocations
  {
    var it := l.items[p];
    var g := Gain(l, p, d, batchId, now);
    assert Counted(l, p, d, batchId, now) == g.(items := RefreshAt(g.items, p));
    assert g.items[p] == it.(batches := g.items[p].batches) && Total(g.items[p].batches) == Total(it.batches) + d by {
      match TargetBatch(it, batchId)
      case Some(b) =>
        TotalUpdate(it.batches, b, it.batches[b].(quantity := it.batches[b].quantity + d));
      case None =>
        TotalAppend(it.batches, [CountBatch(MintId(l.next), d, now)]);
    }
  }

  /** Missing units leave a simple item's batches first-expiring first. */
  lemma CountDeduct(l: Ledger, p: nat, d: int, batchId: string, now: int)
    requires AllKitsReady(l.items) && p < |l.items| && !IsKit(l.items[p]) && d < 0
    requires NonNegative(l.items[p].batches)
    ensures var it := l.items[p];
      var after := Counted(l, p, d, batchId, now).items[p];
      after.totalStock == Max0(Total(it.batches) + d) && Total(after.batches) == Max0(Total(it.batches) + d) &&
      after.history == it.history && after.onLoanCount == it.onLoanCount && after.allocations == it.allocations
  {
    var it := l.items[p];
    FefoTotal(it.batches, -d, it.shelfLifeDays);
  }

  // ---- addStockEntry ----

  /** The batch of an entry: bought today, with the item's shelf life. */
  function EntryBatch(id: string, q: int, it: Item, now: int): Batch
  {
    Batch(id, q, Day(DayOf(now)), Absent, it.shelfLifeDays, false)
  }

  /** What an entry does to the items: an entry record heads the history (cut to the
      limit), the new batch is pushed, and the item and then its kits are recalculated. */
  function EntryStock(items: seq<Item>, p: nat, q: int, id: string, responsible: string, now: int, limit: nat)
    : (r: seq<Item>)
    requires p < |items| && AllKitsReady(items)
    ensures AllKitsReady(r) && SameCatalog(items, r) && SameLoans(items, r)
  {
    var recorded := PrependAt(items, p, HistoryRecord(Entry, q, now, responsible), limit);
    RefreshAt(PushBatchAt(recorded, p, EntryBatch(id, q, items[p], now)), p)
  }

  /** addStockEntry: refused without any change for an unknown item or a quantity that is
      not positive; otherwise one batch with a fresh id is added. */
  function EntryOutcome(l: Ledger, limit: nat, itemId: string, q: int, responsible: string, now: int): (r: Outcome)
    requires AllKitsReady(l.items)
    ensures AllKitsReady(r.ledger.items) && SameCatalog(l.items, r.ledger.items) && SameLoans(l.items, r.ledger.items)
    ensures r.ledger.debits == l.debits && r.ledger.orders == l.orders
    ensures r.ok <==> ItemIndex(l.items, itemId).Some? && q > 0
    ensures r.ok ==> r.ledger.next == l.next + 1
    ensures !r.ok ==> r.ledger == l
  {
    match ItemIndex(l.items, itemId)
    case None => Outcome(false, l)
    case Some(p) =>
      if q <= 0 then Outcome(false, l)
      else Outcome(true, l.(items := EntryStock(l.items, p, q, MintId(l.next), responsible, now, limit), next := l.next + 1))
  }

  method AddStockEntryOn(l: Ledger, limit: nat, itemId: string, q: int, responsible: string, now: int) returns (r: Outcome)
    requires AllKitsReady(l.items)
    ensures r == EntryOutcome(l, limit, itemId, q, responsible, now)
  {
    var found := ItemIndex(l.items, itemId);
    if found.None? || q <= 0 {
      return Outcome(false, l);
    }
    var p := found.value;
    var items := PrependAt(l.items, p, HistoryRecord(Entry, q, now, responsible), limit);
    items := PushBatchAt(items, p, EntryBatch(MintId(l.next), q, l.items[p], now));
    items := RefreshAt(items, p);
    r := Outcome(true, l.(items := items, next := l.next + 1));
  }

  method AddStockEntry(w: Warehouse, itemId: string, quantity: int, responsible: string, now: int) returns (ok: bool)
    requires w.Valid()
    modifies w`items, w`debits, w`serviceOrders, w`nextId
    ensures w.Valid()
    ensures var r := EntryOutcome(old(w.LedgerOf()), w.historyLimit, itemId, quantity, responsible, now);
            ok == r.ok && w.LedgerOf() == r.ledger
  {
    var r := AddStockEntryOn(w.LedgerOf(), w.historyLimit, itemId, quantity, responsible, now);
    w.SaveLedger(r.ledger);
    ok := r.ok;
  }

  /** An entry into a simple item appends exactly the new batch: the total grows by q, the
      figures follow the batches and the loans are untouched; only the kits that use the
      item may change besides it. */
  lemma EntrySimple(items: seq<Item>, p: nat, q: int, id: string, responsible: string, now: int, limit: nat)
    requires p < |items| && AllKitsReady(items) && !IsKit(items[p])
    ensures var r := EntryStock(items, p, q, id, responsible, now, limit);
      var it := items[p];
      r[p].batches == it.batches + [EntryBatch(id, q, it, now)] &&
      Total(r[p].batches) == Total(it.batches) + q &&
      r[p].totalStock == Total(it.batches) + q &&
      r[p].currentStock == Max0(Total(it.batches) + q - it.onLoanCount) &&
      r[p].history == Prepend(it.history, HistoryRecord(Entry, q, now, responsible), limit) &&
      r[p].onLoanCount == it.onLoanCount && r[p].allocations == it.allocations &&
      forall k :: 0 <= k < |items| && k != p && !References(items[k], it.id) ==> r[k] == items[k]
  {
    TotalAppend(items[p].batches, [EntryBatch(id, q, items[p], now)]);
  }

  // ---- replaceExpiredItems ----

  const ReplacementResponsible: string := "Sistema (Substituição de Vencidos)"

  /** What a replacement does to the items: a discard record, q units out first-expiring
      first, a new batch of q units, an entry record, the history cut to the limit, and the
      item and then its kits recalculated. */
  function ReplaceStock(items: seq<Item>, p: nat, q: int, id: string, now: int, limit: nat): (r: seq<Item>)
    requires p < |items| && AllKitsReady(items)
    ensures AllKitsReady(r) && SameCatalog(items, r) && SameLoans(items, r)
  {
    var discarded := DeductAt(UnshiftAt(items, p, HistoryRecord(Discard, q, now, ReplacementResponsible)), p, q);
    var restocked := PushBatchAt(discarded, p, EntryBatch(id, q, items[p], now));
    var recorded := UnshiftAt(restocked, p, HistoryRecord(Entry, q, now, ReplacementResponsible));
    RefreshAt(TruncateAt(recorded, p, limit), p)
  }

  /** replaceExpiredItems: refused without any change for an unknown item or a quantity
      that is not positive or exceeds the total stock. */
  function ReplaceOutcome(l: Ledger, limit: nat, itemId: string, q: int, now: int): (r: Outcome)
    requires AllKitsReady(l.items)
    ensures AllKitsReady(r.ledger.items) && SameCatalog(l.items, r.ledger.items) && SameLoans(l.items, r.ledger.items)
    ensures r.ledger.debits == l.debits && r.ledger.orders == l.orders
    ensures r.ok <==> DiscardAllowed(l.items, itemId, q)
    ensures r.ok ==> r.ledger.next == l.next + 1
    ensures !r.ok ==> r.ledger == l
  {
    match ItemIndex(l.items, itemId)
    case None => Outcome(false, l)
    case Some(p) =>
      if q <= 0 || l.items[p].totalStock < q then Outcome(false, l)
      else Outcome(true, l.(items := ReplaceStock(l.items, p, q, MintId(l.next), now, limit), next := l.next + 1))
  }

  method ReplaceExpiredItemsOn(l: Ledger, limit: nat, itemId: string, q: int, now: int) returns (r: Outcome)
    requires AllKitsReady(l.items)
    ensures r == ReplaceOutcome(l, limit, itemId, q, now)
  {
    var found := ItemIndex(l.items, itemId);
    if found.None? || q <= 0 || l.items[found.value].totalStock < q {
      return Outcome(false, l);
    }
    var p := found.value;
    var items := UnshiftAt(l.items, p, HistoryRecord(Discard, q, now, ReplacementResponsible));
    items := DeductIn(items, p, q);
    items := PushBatchAt(items, p, EntryBatch(MintId(l.next), q, l.items[p], now));
    items := UnshiftAt(items, p, HistoryRecord(Entry, q, now, ReplacementResponsible));
    items := TruncateAt(items, p, limit);
    items := RefreshAt(items, p);
    r := Outcome(true, l.(items := items, next := l.next + 1));
  }

  method ReplaceExpiredItems(w: Warehouse, itemId: string, quantity: int, now: int) returns (ok: bool)
    requires w.Valid()
    modifies w`items, w`debits, w`serviceOrders, w`nextId
    ensures w.Valid()
    ensures var r := ReplaceOutcome(old(w.LedgerOf()), w.historyLimit, itemId, quantity, now);
            ok == r.ok && w.LedgerOf() == r.ledger
  {
    var r := ReplaceExpiredItemsOn(w.LedgerOf(), w.historyLimit, itemId, quantity, now);
    w.SaveLedger(r.ledger);
    ok := r.ok;
  }

  /** Replacing q expired units of a simple item that holds at least q leaves its total as
      it was: the oldest q units go and one new batch of q comes; the history gains the
      discard and then the entry record at its head, cut to the limit. */
  lemma ReplaceSimple(items: seq<Item>, p: nat, q: int, id: string, now: int, limit: nat)
    requires p < |items| && AllKitsReady(items) && !IsKit(items[p])
    requires NonNegative(items[p].batches) && 0 <= q <= Total(items[p].batches)
    ensures var r := ReplaceStock(items, p, q, id, now, limit);
      var it := items[p];
      r[p].batches == FefoDeduct(it.batches, q, it.shelfLifeDays) + [EntryBatch(id, q, it, now)] &&
      Total(r[p].batches) == Total(it.batches) &&
      r[p].totalStock == Total(it.batches) &&
      r[p].history == Truncate([HistoryRecord(Entry, q, now, ReplacementResponsible),
                                HistoryRecord(Discard, q, now, ReplacementResponsible)] + it.history, limit) &&
      r[p].onLoanCount == it.onLoanCount && r[p].allocations == it.allocations &&
      forall k :: 0 <= k < |items| && k != p && !References(items[k], it.id) ==> r[k] == items[k]
  {
    var it := items[p];
    var left := FefoDeduct(it.batches, q, it.shelfLifeDays);
    FefoTotal(it.batches, q, it.shelfLifeDays);
    TotalAppend(left, [EntryBatch(id, q, it, now)]);
    assert [HistoryRecord(Entry, q, now, ReplacementResponsible)] + ([HistoryRecord(Discard, q, now, ReplacementResponsible)] + it.history)
        == [HistoryRecord(Entry, q, now, ReplacementResponsible), HistoryRecord(Discard, q, now, ReplacementResponsible)] + it.history;
  }
}
