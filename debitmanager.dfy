/** js/modules/debitmanager.js: debits are recorded newest first with the amount rounded
    to cents, and settled at most once. */
module DebitManager {
  import opened Common
  import opened Store

  /** What a caller asks to charge. */
  datatype Charge = Charge(
    collaboratorId: string,
    itemId: string,
    itemName: string,
    quantity: int,
    amount: real,
    reason: string)

  /** Math.round(x * 100) / 100, where Math.round(y) is the floor of y + 1/2. The result is
      within half a cent of x. */
  function RoundCents(x: real): (r: real)
    ensures x - 0.005 < r <= x + 0.005
  {
    var f := (x * 100.0 + 0.5).Floor;
    assert f as real <= x * 100.0 + 0.5 < f as real + 1.0;
    f as real / 100.0
  }

  /** The rounded amount is positive exactly when the amount is at least half a cent. */
  lemma RoundCentsPositive(x: real)
    ensures RoundCents(x) > 0.0 <==> x >= 0.005
  {
    var f := (x * 100.0 + 0.5).Floor;
    assert RoundCents(x) == f as real / 100.0;
    if x >= 0.005 {
      assert x * 100.0 + 0.5 >= 1.0;
      assert f >= 1;
    } else {
      assert x * 100.0 + 0.5 < 1.0;
      assert f <= 0;
    }
  }

  /** A whole number of cents is left as it is. */
  lemma RoundCentsExact(cents: int)
    ensures RoundCents(cents as real / 100.0) == cents as real / 100.0
  {
    var x := cents as real / 100.0;
    assert x * 100.0 + 0.5 == cents as real + 0.5;
    assert (x * 100.0 + 0.5).Floor == cents;
  }

  function NewDebit(id: string, c: Charge, now: int): Debit
  {
    Debit(id, c.collaboratorId, c.itemId, c.itemName, c.quantity, RoundCents(c.amount), c.reason, now, false, None)
  }

  /** addDebit on the ledger: a charge of at least half a cent is prepended as an open debit
      with a fresh id; a smaller one changes nothing. */
  function PostDebit(l: Ledger, c: Charge, now: int): (r: Ledger)
    ensures r.items == l.items && r.orders == l.orders
    ensures c.amount >= 0.005 ==>
              r.debits == [NewDebit(MintId(l.next), c, now)] + l.debits && r.next == l.next + 1
    ensures c.amount < 0.005 ==> r == l
  {
    RoundCentsPositive(c.amount);
    if RoundCents(c.amount) <= 0.0 then l
    else l.(debits := [NewDebit(MintId(l.next), c, now)] + l.debits, next := l.next + 1)
  }

  method AddDebit(w: Warehouse, c: Charge, now: int) returns (d: Option<Debit>)
    modifies w`debits, w`nextId
    ensures d.Some? <==> c.amount >= 0.005
    ensures d.Some? ==> d.value == NewDebit(MintId(old(w.nextId)), c, now) &&
                        !d.value.isSettled && d.value.settledDate.None? &&
                        w.debits == [d.value] + old(w.debits) && w.nextId == old(w.nextId) + 1
    ensures d.None? ==> w.debits == old(w.debits) && w.nextId == old(w.nextId)
    ensures w.LedgerOf() == PostDebit(old(w.LedgerOf()), c, now)
  {
    var amount := RoundCents(c.amount);
    RoundCentsPositive(c.amount);
    if amount <= 0.0 {
      return None;
    }
    var id := w.FreshId();
    var debit := NewDebit(id, c, now);
    w.debits := [debit] + w.debits;
    d := Some(debit);
  }

  function DebitIndex(ds: seq<Debit>, id: string): (r: Option<nat>)
    ensures r.Some? ==> r.value < |ds| && ds[r.value].id == id
    ensures r.Some? ==> forall k :: 0 <= k < r.value ==> ds[k].id != id
    ensures r.None? ==> forall k :: 0 <= k < |ds| ==> ds[k].id != id
  {
    FirstIndex(ds, (d: Debit) => d.id == id)
  }

  /** settleDebit on the list: None for an unknown or already settled debit; otherwise that
      debit, and only it, becomes settled at `now`, its amount untouched. */
  function Settled(ds: seq<Debit>, id: string, now: int): (r: Option<seq<Debit>>)
    ensures r.Some? <==> DebitIndex(ds, id).Some? && !ds[DebitIndex(ds, id).value].isSettled
    ensures r.Some? ==>
      var k := DebitIndex(ds, id).value;
      |r.value| == |ds| && r.value[k].isSettled && r.value[k].settledDate == Some(now) &&
      r.value[k] == ds[k].(isSettled := true, settledDate := Some(now)) &&
      forall j :: 0 <= j < |ds| && j != k ==> r.value[j] == ds[j]
  {
    match DebitIndex(ds, id)
    case None => None
    case Some(k) => if ds[k].isSettled then None else Some(ds[k := ds[k].(isSettled := true, settledDate := Some(now))])
  }

  /** A debit can be settled once: settling it again is refused. */
  lemma SettleOnce(ds: seq<Debit>, id: string, now: int, later: int)
    requires Settled(ds, id, now).Some?
    ensures Settled(Settled(ds, id, now).value, id, later).None?
  {
    var k := DebitIndex(ds, id).value;
    var s := Settled(ds, id, now).value;
    assert forall j :: 0 <= j < |s| ==> s[j].id == ds[j].id;
    assert DebitIndex(s, id) == Some(k);
  }

  method SettleDebit(w: Warehouse, id: string, now: int) returns (ok: bool)
    modifies w`debits
    ensures ok <==> Settled(old(w.debits), id, now).Some?
    ensures ok ==> w.debits == Settled(old(w.debits), id, now).value
    ensures !ok ==> w.debits == old(w.debits)
  {
    var k := DebitIndex(w.debits, id);
    if k.None? {
      return false;
    }
    var debit := w.debits[k.value];
    if debit.isSettled {
      return false;
    }
    w.debits := w.debits[k.value := debit.(isSettled := true, settledDate := Some(now))];
    ok := true;
  }

  /** getAllDebits: the stored list (an absent list reads as empty). */
  method GetAllDebits(w: Warehouse) returns (ds: seq<Debit>)
    ensures ds == w.debits
  {
    ds := w.debits;
  }
}
