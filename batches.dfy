/** Stock batches and the first-expiring-first-out deduction of
    js/modules/stockcontrol.js (distributeStockFromBatches). */
module Batches {
  import opened Common
  import opened Sorting

  /** A stored date: missing (null, undefined or empty), a string that does not parse, or a
      day number counted from 1970-01-01. */
  datatype DateValue = Absent | Malformed | Day(n: int)

  /** shelfLifeDays == 0 stands for a missing or zero shelf life (both falsy in the source). */
  datatype Batch = Batch(
    id: string,
    quantity: int,
    purchaseDate: DateValue,
    manufacturingDate: DateValue,
    shelfLifeDays: int,
    isReturn: bool)

  /** 2999-12-31, the expiry given to a batch whose expiry cannot be computed. */
  const NeverExpires: int := 376199

  function Total(bs: seq<Batch>): int
  {
    if bs == [] then 0 else bs[0].quantity + Total(bs[1..])
  }

  predicate NonNegative(bs: seq<Batch>)
  {
    forall k :: 0 <= k < |bs| ==> bs[k].quantity >= 0
  }

  /** The manufacturing date when present, the purchase date otherwise. */
  function BaseDate(b: Batch): DateValue
  {
    if b.manufacturingDate != Absent then b.manufacturingDate else b.purchaseDate
  }

  /** batch.shelfLifeDays || item.shelfLifeDays || 0 */
  function EffectiveShelfLife(b: Batch, itemShelfLife: int): int
  {
    if b.shelfLifeDays != 0 then b.shelfLifeDays else itemShelfLife
  }

  /** The expiry day used to order batches. */
  function ExpiryOf(b: Batch, itemShelfLife: int): (r: int)
    ensures BaseDate(b).Day? && EffectiveShelfLife(b, itemShelfLife) > 0 ==>
              r == BaseDate(b).n + EffectiveShelfLife(b, itemShelfLife)
    ensures !BaseDate(b).Day? || EffectiveShelfLife(b, itemShelfLife) <= 0 ==> r == NeverExpires
  {
    var shelf := EffectiveShelfLife(b, itemShelfLife);
    match BaseDate(b)
    case Day(d) => if shelf <= 0 then NeverExpires else d + shelf
    case _ => NeverExpires
  }

  function ExpiresBefore(itemShelfLife: int): (Batch, Batch) -> bool
  {
    (a: Batch, b: Batch) => ExpiryOf(a, itemShelfLife) < ExpiryOf(b, itemShelfLife)
  }

  lemma ExpiresBeforeIsStrictWeak(itemShelfLife: int)
    ensures StrictWeakOrder(ExpiresBefore(itemShelfLife))
  {
  }

  /** The comparator's sort: ascending expiry, ties in stored order. */
  function SortByExpiry(bs: seq<Batch>, itemShelfLife: int): seq<Batch>
  {
    SortBy(bs, ExpiresBefore(itemShelfLife))
  }

  /** The consumption loop: take from each batch in turn until the remainder is used up. */
  function Consume(bs: seq<Batch>, remaining: int): (r: seq<Batch>)
    ensures |r| == |bs|
  {
    if bs == [] || remaining <= 0 then bs
    else if bs[0].quantity > remaining then [bs[0].(quantity := bs[0].quantity - remaining)] + bs[1..]
    else [bs[0].(quantity := 0)] + Consume(bs[1..], remaining - bs[0].quantity)
  }

  /** Keeps the batches with a positive quantity. */
  function Prune(bs: seq<Batch>): (r: seq<Batch>)
    ensures |r| <= |bs|
    ensures forall k :: 0 <= k < |r| ==> r[k].quantity > 0
  {
    if bs == [] then [] else (if bs[0].quantity > 0 then [bs[0]] else []) + Prune(bs[1..])
  }

  /** The batches left after deducting q first-expiring-first-out. */
  function FefoDeduct(bs: seq<Batch>, q: int, itemShelfLife: int): seq<Batch>
  {
    if bs == [] then bs else Prune(Consume(SortByExpiry(bs, itemShelfLife), q))
  }

  /** distributeStockFromBatches: sort by expiry, consume in a loop, drop emptied batches. */
  method Distribute(bs: seq<Batch>, q: int, itemShelfLife: int) returns (r: seq<Batch>)
    ensures r == FefoDeduct(bs, q, itemShelfLife)
  {
    if |bs| == 0 {
      return bs;
    }
    var sorted := SortByExpiry(bs, itemShelfLife);
    var consumed := ConsumeLoop(sorted, q);
    r := Prune(consumed);
  }

  /** The loop of distributeStockFromBatches over the sorted batches. */
  method ConsumeLoop(sorted: seq<Batch>, q: int) returns (cur: seq<Batch>)
    ensures cur == Consume(sorted, q)
  {
    cur := sorted;
    var remaining := q;
    var i := 0;
    while i < |cur| && remaining > 0
      invariant 0 <= i <= |cur| == |sorted|
      invariant ConsumeFrom(cur, i, remaining) == ConsumeFrom(sorted, 0, q)
    {
      var b := cur[i];
      if b.quantity > remaining {
        cur := cur[i := b.(quantity := b.quantity - remaining)];
        remaining := 0;
      } else {
        remaining := remaining - b.quantity;
        cur := cur[i := b.(quantity := 0)];
      }
      i := i + 1;
    }
    ConsumeFromIsConsume(sorted, 0, q);
    assert sorted[..0] == [] && sorted[0..] == sorted;
  }

  /** The loop state: positions before i are done, the rest still to visit. */
  function ConsumeFrom(s: seq<Batch>, i: nat, remaining: int): (r: seq<Batch>)
    requires i <= |s|
    decreases |s| - i
  {
    if i == |s| || remaining <= 0 then s
    else if s[i].quantity > remaining then s[i := s[i].(quantity := s[i].quantity - remaining)]
    else ConsumeFrom(s[i := s[i].(quantity := 0)], i + 1, remaining - s[i].quantity)
  }

  lemma {:induction false} ConsumeFromIsConsume(s: seq<Batch>, i: nat, remaining: int)
    requires i <= |s|
    ensures ConsumeFrom(s, i, remaining) == s[..i] + Consume(s[i..], remaining)
    decreases |s| - i
  {
    if i == |s| || remaining <= 0 {
      assert s == s[..i] + s[i..];
    } else {
      ConsumeStep(s, i, remaining);
      if s[i].quantity > remaining {
        var b := s[i].(quantity := s[i].quantity - remaining);
        UpdateSplit(s, i, b);
      } else {
        var b := s[i].(quantity := 0);
        var t := s[i := b];
        UpdateSplit(s, i, b);
        ConsumeFromIsConsume(t, i + 1, remaining - s[i].quantity);
        assert t[..i + 1] == s[..i] + [b];
        assert t[i + 1..] == s[i + 1..];
      }
    }
  }

  lemma UpdateSplit(s: seq<Batch>, i: nat, b: Batch)
    requires i < |s|
    ensures s[i := b] == s[..i] + ([b] + s[i + 1..])
  {
  }

  /** One turn of the consumption loop, at position i. */
  lemma ConsumeStep(s: seq<Batch>, i: nat, remaining: int)
    requires i < |s| && remaining > 0
    ensures s[i].quantity > remaining ==>
      Consume(s[i..], remaining) == [s[i].(quantity := s[i].quantity - remaining)] + s[i + 1..]
    ensures s[i].quantity <= remaining ==>
      Consume(s[i..], remaining) == [s[i].(quantity := 0)] + Consume(s[i + 1..], remaining - s[i].quantity)
  {
    assert s[i..][0] == s[i] && s[i..][1..] == s[i + 1..];
  }

  // ---- properties of the deduction ----

  lemma {:induction false} TotalAppend(a: seq<Batch>, b: seq<Batch>)
    ensures Total(a + b) == Total(a) + Total(b)
  {
    if a == [] {
      assert a + b == b;
    } else {
      assert (a + b)[0] == a[0];
      assert (a + b)[1..] == a[1..] + b;
      TotalAppend(a[1..], b);
    }
  }

  /** Replacing one batch changes the total by the difference of the two quantities. */
  lemma TotalUpdate(s: seq<Batch>, i: nat, b: Batch)
    requires i < |s|
    ensures Total(s[i := b]) == Total(s) - s[i].quantity + b.quantity
  {
    UpdateSplit(s, i, b);
    TotalAppend(s[..i], [b] + s[i + 1..]);
    TotalAppend([b], s[i + 1..]);
    assert s == s[..i] + ([s[i]] + s[i + 1..]);
    TotalAppend(s[..i], [s[i]] + s[i + 1..]);
    TotalAppend([s[i]], s[i + 1..]);
  }

  lemma TotalSingle(b: Batch)
    ensures Total([b]) == b.quantity
  {
    assert [b][1..] == [];
  }

  /** Removing one batch lowers the total by its quantity and takes exactly that batch out. */
  lemma TotalRemove(s: seq<Batch>, i: nat)
    requires i < |s|
    ensures Total(RemoveAt(s, i)) == Total(s) - s[i].quantity
    ensures multiset(RemoveAt(s, i)) == multiset(s) - multiset{s[i]}
  {
    var pre, post := s[..i], s[i + 1..];
    assert RemoveAt(s, i) == pre + post;
    TotalAppend(pre, post);
    TotalAppend(pre, [s[i]] + post);
    TotalAppend([s[i]], post);
    TotalSingle(s[i]);
    assert s == pre + ([s[i]] + post);
    RemoveAtMultiset(s, i);
  }

  lemma {:induction false} TotalInsert(x: Batch, s: seq<Batch>, less: (Batch, Batch) -> bool)
    ensures Total(InsertBy(x, s, less)) == x.quantity + Total(s)
  {
    if s != [] && less(s[0], x) {
      assert ([s[0]] + InsertBy(x, s[1..], less))[1..] == InsertBy(x, s[1..], less);
      TotalInsert(x, s[1..], less);
    }
  }

  /** Sorting moves quantities around without changing their sum. */
  lemma {:induction false} TotalSort(s: seq<Batch>, less: (Batch, Batch) -> bool)
    ensures Total(SortBy(s, less)) == Total(s)
  {
    if s != [] {
      TotalSort(s[1..], less);
      TotalInsert(s[0], SortBy(s[1..], less), less);
    }
  }

  lemma NonNegativeSort(s: seq<Batch>, less: (Batch, Batch) -> bool)
    requires NonNegative(s)
    ensures NonNegative(SortBy(s, less))
  {
    forall k | 0 <= k < |s| ensures SortBy(s, less)[k].quantity >= 0 {
      SortByMembers(s, less, k);
    }
  }

  lemma {:induction false} TotalNonNegative(s: seq<Batch>)
    requires NonNegative(s)
    ensures Total(s) >= 0
  {
    if s != [] {
      TotalNonNegative(s[1..]);
    }
  }

  /** On non-negative batches the loop removes exactly min(q, total) units, and leaves
      each batch between zero and its old quantity. */
  lemma {:induction false} ConsumeTotal(s: seq<Batch>, remaining: int)
    requires NonNegative(s) && remaining >= 0
    ensures Total(Consume(s, remaining)) == Max0(Total(s) - remaining)
    ensures forall k :: 0 <= k < |s| ==> 0 <= Consume(s, remaining)[k].quantity <= s[k].quantity
  {
    TotalNonNegative(s);
    if s == [] || remaining <= 0 {
    } else if s[0].quantity > remaining {
      var r := Consume(s, remaining);
      assert r[1..] == s[1..];
      TotalNonNegative(s[1..]);
    } else {
      var r := Consume(s, remaining);
      assert r[1..] == Consume(s[1..], remaining - s[0].quantity);
      ConsumeTotal(s[1..], remaining - s[0].quantity);
      forall k | 0 <= k < |s| ensures 0 <= r[k].quantity <= s[k].quantity {
        if k > 0 {
          assert r[k] == r[1..][k - 1] && s[k] == s[1..][k - 1];
        }
      }
    }
  }

  lemma {:induction false} PruneTotal(s: seq<Batch>)
    requires NonNegative(s)
    ensures Total(Prune(s)) == Total(s)
  {
    if s != [] {
      PruneTotal(s[1..]);
      TotalAppend(if s[0].quantity > 0 then [s[0]] else [], Prune(s[1..]));
    }
  }

  /** Deducting q from batches that hold no negative quantity leaves max(0, total - q)
      units, all in batches with a positive quantity. */
  lemma FefoTotal(bs: seq<Batch>, q: int, itemShelfLife: int)
    requires NonNegative(bs) && q >= 0
    ensures Total(FefoDeduct(bs, q, itemShelfLife)) == Max0(Total(bs) - q)
  {
    if bs != [] {
      var s := SortByExpiry(bs, itemShelfLife);
      TotalSort(bs, ExpiresBefore(itemShelfLife));
      NonNegativeSort(bs, ExpiresBefore(itemShelfLife));
      ConsumeTotal(s, q);
      PruneTotal(Consume(s, q));
    }
  }

  /** Asking for at least the whole stock empties the batch list; there is no error path. */
  lemma FefoExhausts(bs: seq<Batch>, q: int, itemShelfLife: int)
    requires NonNegative(bs) && q >= Total(bs)
    ensures FefoDeduct(bs, q, itemShelfLife) == []
  {
    if bs != [] {
      TotalNonNegative(bs);
      FefoTotal(bs, q, itemShelfLife);
      var r := Prune(Consume(SortByExpiry(bs, itemShelfLife), q));
      assert FefoDeduct(bs, q, itemShelfLife) == r;
      PositiveTotal(r);
    }
  }

  lemma {:induction false} PositiveTotal(s: seq<Batch>)
    requires forall k :: 0 <= k < |s| ==> s[k].quantity > 0
    ensures Total(s) >= 0 && (s != [] ==> Total(s) > 0)
  {
    if s != [] {
      PositiveTotal(s[1..]);
    }
  }

  /** The loop takes from an earlier batch before a later one: once some batch is
      touched, every batch before it has been emptied. */
  lemma {:induction false} ConsumeEarliestFirst(s: seq<Batch>, remaining: int, i: nat, j: nat)
    requires i < j < |s|
    requires Consume(s, remaining)[j].quantity != s[j].quantity
    ensures Consume(s, remaining)[i].quantity == 0
  {
    var r := Consume(s, remaining);
    if remaining > 0 && s[0].quantity <= remaining {
      assert r[j] == r[1..][j - 1] && s[j] == s[1..][j - 1];
      if i > 0 {
        ConsumeEarliestFirst(s[1..], remaining - s[0].quantity, i - 1, j - 1);
        assert r[i] == r[1..][i - 1];
      }
    }
  }

  lemma {:induction false} PruneMembers(s: seq<Batch>)
    ensures forall k :: 0 <= k < |Prune(s)| ==> Prune(s)[k] in s
  {
    if s != [] {
      PruneMembers(s[1..]);
      var t := Prune(s[1..]);
      forall k | 0 <= k < |t| ensures t[k] in s {
        var m :| 0 <= m < |s[1..]| && s[1..][m] == t[k];
        assert s[m + 1] == t[k];
      }
    }
  }

  /** Dropping batches keeps the others in order. */
  lemma {:induction false} PruneSorted(s: seq<Batch>, less: (Batch, Batch) -> bool)
    requires SortedBy(s, less)
    ensures SortedBy(Prune(s), less)
  {
    if s != [] {
      assert SortedBy(s[1..], less) by {
        forall i, j | 0 <= i < j < |s[1..]| ensures !less(s[1..][j], s[1..][i]) {
          assert s[1..][j] == s[j + 1] && s[1..][i] == s[i + 1];
        }
      }
      PruneSorted(s[1..], less);
      PruneMembers(s[1..]);
      var t := Prune(s[1..]);
      if s[0].quantity > 0 {
        var r := [s[0]] + t;
        forall i, j | 0 <= i < j < |r| ensures !less(r[j], r[i]) {
          assert r[j] == t[j - 1];
          if i > 0 {
            assert r[i] == t[i - 1];
          } else {
            var m :| 0 <= m < |s[1..]| && s[1..][m] == t[j - 1];
            assert s[1..][m] == s[m + 1];
          }
        }
      } else {
        assert Prune(s) == t;
      }
    }
  }

  /** The loop changes quantities only. */
  lemma {:induction false} ConsumeFrame(s: seq<Batch>, remaining: int)
    ensures forall k :: 0 <= k < |s| ==> Consume(s, remaining)[k] == s[k].(quantity := Consume(s, remaining)[k].quantity)
  {
    if s != [] && remaining > 0 && s[0].quantity <= remaining {
      var r := Consume(s, remaining);
      ConsumeFrame(s[1..], remaining - s[0].quantity);
      forall k | 0 < k < |s| ensures r[k] == s[k].(quantity := r[k].quantity) {
        assert r[k] == r[1..][k - 1] && s[k] == s[1..][k - 1];
      }
    }
  }

  lemma ConsumeKeepsOrder(s: seq<Batch>, remaining: int, itemShelfLife: int)
    requires SortedBy(s, ExpiresBefore(itemShelfLife))
    ensures SortedBy(Consume(s, remaining), ExpiresBefore(itemShelfLife))
  {
    var r := Consume(s, remaining);
    ConsumeFrame(s, remaining);
    forall i, j | 0 <= i < j < |r|
      ensures !ExpiresBefore(itemShelfLife)(r[j], r[i])
    {
      assert r[i] == s[i].(quantity := r[i].quantity) && r[j] == s[j].(quantity := r[j].quantity);
      assert ExpiryOf(r[i], itemShelfLife) == ExpiryOf(s[i], itemShelfLife);
      assert ExpiryOf(r[j], itemShelfLife) == ExpiryOf(s[j], itemShelfLife);
    }
  }

  /** The batches that remain are in ascending order of expiry, they are the sorted batches
      after consumption with the empty ones pruned, and deduction happened from the earliest
      expiry onwards; ConsumeFrame states that consumption keeps each batch's identity and
      dates, and PruneMembers that pruning keeps only batches it was given. */
  lemma FefoOrder(bs: seq<Batch>, q: int, itemShelfLife: int)
    ensures SortedBy(FefoDeduct(bs, q, itemShelfLife), ExpiresBefore(itemShelfLife))
    ensures var s := SortByExpiry(bs, itemShelfLife);
            var c := Consume(s, q);
            bs != [] ==>
              FefoDeduct(bs, q, itemShelfLife) == Prune(c) &&
              (forall i, j :: 0 <= i < j < |s| && c[j].quantity != s[j].quantity ==> c[i].quantity == 0)
  {
    if bs != [] {
      var s := SortByExpiry(bs, itemShelfLife);
      ExpiresBeforeIsStrictWeak(itemShelfLife);
      SortBySorted(bs, ExpiresBefore(itemShelfLife));
      ConsumeKeepsOrder(s, q, itemShelfLife);
      PruneSorted(Consume(s, q), ExpiresBefore(itemShelfLife));
      var c := Consume(s, q);
      forall i, j | 0 <= i < j < |s| && c[j].quantity != s[j].quantity
        ensures c[i].quantity == 0
      {
        ConsumeEarliestFirst(s, q, i, j);
      }
    }
  }

  /** A worked case: 3 units expiring on day 5 and 5 units expiring on day 10, stored in
      the opposite order; deducting 4 empties the first and leaves 4 in the second. */
  lemma FefoExample()
    ensures var early := Batch("a", 3, Day(0), Absent, 5, false);
            var late := Batch("b", 5, Day(0), Absent, 10, false);
            FefoDeduct([late, early], 4, 0) == [late.(quantity := 4)]
  {
    var early := Batch("a", 3, Day(0), Absent, 5, false);
    var late := Batch("b", 5, Day(0), Absent, 10, false);
    var less := ExpiresBefore(0);
    assert less(early, late);
    assert InsertBy(early, [], less) == [early];
    assert SortBy([early], less) == [early];
    assert SortBy([late, early], less) == InsertBy(late, [early], less);
    assert InsertBy(late, [early], less) == [early] + InsertBy(late, [], less);
    assert SortByExpiry([late, early], 0) == [early, late];
    assert Consume([early, late], 4) == [early.(quantity := 0)] + Consume([late], 1);
  }
}
