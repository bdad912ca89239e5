/** The derived reports of js/modules/reporting.js: movement, usage, stock level, stock value
    and purchase suggestion. Each is a pure function of the item list (and the settings, for
    the stock levels); timestamps are milliseconds, as in the item histories. */
module Reporting {
  import opened Common
  import opened Items
  import opened Sorting
  import opened Config

  // ---- movement report ----

  /** One history record of an item as the movement report lists it. */
  datatype MovementRow = MovementRow(timestamp: int, itemName: string, kind: HistoryKind, quantity: int, responsible: string)

  function RowOf(name: string, rec: HistoryRecord): MovementRow
  {
    MovementRow(rec.timestamp, name, rec.kind, rec.quantity, if rec.responsible == "" then "N/A" else rec.responsible)
  }

  /** The closed interval [start, end]. */
  predicate Within(t: int, start: int, end: int)
  {
    start <= t <= end
  }

  /** The rows of one item's records inside the window, in history order. */
  function RecordRows(name: string, h: seq<HistoryRecord>, start: int, end: int): (r: seq<MovementRow>)
    ensures forall k :: 0 <= k < |r| ==> Within(r[k].timestamp, start, end) && r[k].itemName == name
  {
    if h == [] then []
    else (if Within(h[0].timestamp, start, end) then [RowOf(name, h[0])] else []) + RecordRows(name, h[1..], start, end)
  }

  /** The rows of every item, item by item. */
  function Collected(items: seq<Item>, start: int, end: int): (r: seq<MovementRow>)
    ensures forall k :: 0 <= k < |r| ==> Within(r[k].timestamp, start, end)
  {
    if items == [] then []
    else RecordRows(items[0].name, items[0].history, start, end) + Collected(items[1..], start, end)
  }

  lemma {:induction false} RecordRowsMembers(name: string, h: seq<HistoryRecord>, start: int, end: int)
    ensures forall row :: row in RecordRows(name, h, start, end) <==>
      exists k :: 0 <= k < |h| && Within(h[k].timestamp, start, end) && row == RowOf(name, h[k])
  {
    if h != [] {
      RecordRowsMembers(name, h[1..], start, end);
      forall row | exists k :: 0 <= k < |h| && Within(h[k].timestamp, start, end) && row == RowOf(name, h[k])
        ensures row in RecordRows(name, h, start, end)
      {
        var k :| 0 <= k < |h| && Within(h[k].timestamp, start, end) && row == RowOf(name, h[k]);
        if k > 0 {
          assert h[1..][k - 1] == h[k];
        }
      }
      forall row | row in RecordRows(name, h[1..], start, end)
        ensures exists k :: 0 <= k < |h| && Within(h[k].timestamp, start, end) && row == RowOf(name, h[k])
      {
        var k :| 0 <= k < |h[1..]| && Within(h[1..][k].timestamp, start, end) && row == RowOf(name, h[1..][k]);
        assert h[k + 1] == h[1..][k];
      }
    }
  }

  /** A row is collected exactly when it is an in-window record of some item. */
  lemma {:induction false} CollectedMembers(items: seq<Item>, start: int, end: int)
    ensures forall row :: row in Collected(items, start, end) <==>
      exists i, k :: 0 <= i < |items| && 0 <= k < |items[i].history| &&
        Within(items[i].history[k].timestamp, start, end) && row == RowOf(items[i].name, items[i].history[k])
  {
    if items != [] {
      CollectedMembers(items[1..], start, end);
      RecordRowsMembers(items[0].name, items[0].history, start, end);
      forall row | (exists i, k :: 0 <= i < |items| && 0 <= k < |items[i].history| &&
                                   Within(items[i].history[k].timestamp, start, end) &&
                                   row == RowOf(items[i].name, items[i].history[k]))
        ensures row in Collected(items, start, end)
      {
        var i, k :| 0 <= i < |items| && 0 <= k < |items[i].history| &&
          Within(items[i].history[k].timestamp, start, end) && row == RowOf(items[i].name, items[i].history[k]);
        if i > 0 {
          assert items[1..][i - 1] == items[i];
        }
      }
      forall row | row in Collected(items[1..], start, end)
        ensures (exists i, k :: 0 <= i < |items| && 0 <= k < |items[i].history| &&
                                Within(items[i].history[k].timestamp, start, end) &&
                                row == RowOf(items[i].name, items[i].history[k]))
      {
        var i, k :| 0 <= i < |items[1..]| && 0 <= k < |items[1..][i].history| &&
          Within(items[1..][i].history[k].timestamp, start, end) && row == RowOf(items[1..][i].name, items[1..][i].history[k]);
        assert items[i + 1] == items[1..][i];
      }
    }
  }

  /** The comparator of the movement report: newer first. */
  function NewerFirst(a: MovementRow, b: MovementRow): bool
  {
    a.timestamp > b.timestamp
  }

  /** generateMovementReport: the in-window records of all items, newest first. */
  function MovementReport(items: seq<Item>, start: int, end: int): seq<MovementRow>
  {
    SortBy(Collected(items, start, end), NewerFirst)
  }

  /** The movement report holds exactly the in-window records, each once per occurrence,
      newest first. */
  lemma MovementReportProperties(items: seq<Item>, start: int, end: int)
    ensures var r := MovementReport(items, start, end);
      multiset(r) == multiset(Collected(items, start, end)) &&
      (forall i, j :: 0 <= i < j < |r| ==> r[i].timestamp >= r[j].timestamp) &&
      (forall row :: row in r <==>
        exists i, k :: 0 <= i < |items| && 0 <= k < |items[i].history| &&
          Within(items[i].history[k].timestamp, start, end) && row == RowOf(items[i].name, items[i].history[k]))
  {
    var c := Collected(items, start, end);
    var r := MovementReport(items, start, end);
    SortByPermutes(c, NewerFirst);
    assert StrictWeakOrder(NewerFirst);
    SortBySorted(c, NewerFirst);
    CollectedMembers(items, start, end);
    forall row ensures row in r <==> row in c {
      assert row in r <==> row in multiset(r);
      assert row in c <==> row in multiset(c);
    }
  }

  // ---- usage report ----

  datatype UsageRow = UsageRow(name: string, quantity: int)

  /** Exits and loans count as usage. */
  predicate Counted(m: MovementRow)
  {
    m.kind == Exit || m.kind == Loan
  }

  function Abs(x: int): nat
  {
    if x < 0 then -x else x
  }

  function NameIndex(acc: seq<UsageRow>, n: string): (r: Option<nat>)
    ensures r.Some? ==> r.value < |acc| && acc[r.value].name == n
    ensures r.None? ==> forall k :: 0 <= k < |acc| ==> acc[k].name != n
  {
    FirstIndex(acc, (u: UsageRow) => u.name == n)
  }

  /** One movement into the tally: a counted movement adds |quantity| to its item's row,
      which is appended the first time the name is seen. */
  function Tally(acc: seq<UsageRow>, m: MovementRow): seq<UsageRow>
  {
    if !Counted(m) then acc
    else match NameIndex(acc, m.itemName)
      case Some(k) => acc[k := acc[k].(quantity := acc[k].quantity + Abs(m.quantity))]
      case None => acc + [UsageRow(m.itemName, Abs(m.quantity))]
  }

  function TallyAll(acc: seq<UsageRow>, ms: seq<MovementRow>): seq<UsageRow>
    decreases ms
  {
    if ms == [] then acc else TallyAll(Tally(acc, ms[0]), ms[1..])
  }

  /** The reference definition: the usage of item name n in the movements. */
  function UsageOf(ms: seq<MovementRow>, n: string): int
  {
    if ms == [] then 0
    else (if Counted(ms[0]) && ms[0].itemName == n then Abs(ms[0].quantity) else 0) + UsageOf(ms[1..], n)
  }

  /** The names that have a counted movement. */
  function CountedNames(ms: seq<MovementRow>): set<string>
  {
    set j | 0 <= j < |ms| && Counted(ms[j]) :: ms[j].itemName
  }

  predicate NamesDistinct(acc: seq<UsageRow>)
  {
    forall i, j :: 0 <= i < j < |acc| ==> acc[i].name != acc[j].name
  }

  /** The tallied usage of n (0 when n has no row). */
  function QtyOf(acc: seq<UsageRow>, n: string): int
  {
    match NameIndex(acc, n)
    case None => 0
    case Some(k) => acc[k].quantity
  }

  function AccNames(acc: seq<UsageRow>): set<string>
  {
    set k | 0 <= k < |acc| :: acc[k].name
  }

  /** In a tally without repeated names, the row at p is the one NameIndex finds. */
  lemma NameIndexOfRow(acc: seq<UsageRow>, p: nat)
    requires NamesDistinct(acc) && p < |acc|
    ensures NameIndex(acc, acc[p].name) == Some(p)
  {
    assert forall j :: 0 <= j < p ==> acc[j].name != acc[p].name;
  }

  /** Two tallies whose names agree position by position find the same rows. */
  lemma SameNamesSameIndex(acc: seq<UsageRow>, t: seq<UsageRow>, n: string)
    requires |acc| <= |t| && forall j :: 0 <= j < |acc| ==> t[j].name == acc[j].name
    requires NameIndex(acc, n).Some? || forall j :: |acc| <= j < |t| ==> t[j].name != n
    ensures NameIndex(t, n) == NameIndex(acc, n)
  {
    match NameIndex(acc, n)
    case None =>
    case Some(p) =>
      assert forall j :: 0 <= j <= p ==> t[j].name == acc[j].name;
  }

  /** A counted movement of a name already tallied raises that row only. */
  lemma TallyExisting(acc: seq<UsageRow>, m: MovementRow, k: nat)
    requires NamesDistinct(acc) && Counted(m) && NameIndex(acc, m.itemName) == Some(k)
    ensures var t := Tally(acc, m);
      NamesDistinct(t) && AccNames(t) == AccNames(acc) &&
      forall n :: QtyOf(t, n) == QtyOf(acc, n) + (if m.itemName == n then Abs(m.quantity) else 0)
  {
    var t := Tally(acc, m);
    assert |t| == |acc| && forall j :: 0 <= j < |acc| ==> t[j].name == acc[j].name;
    assert AccNames(t) == AccNames(acc) by {
      forall x | x in AccNames(acc) ensures x in AccNames(t) {
        var j :| 0 <= j < |acc| && acc[j].name == x;
        assert t[j].name == x;
      }
    }
    forall n ensures QtyOf(t, n) == QtyOf(acc, n) + (if m.itemName == n then Abs(m.quantity) else 0) {
      SameNamesSameIndex(acc, t, n);
    }
  }

  /** A counted movement of a new name appends its row. */
  lemma TallyNew(acc: seq<UsageRow>, m: MovementRow)
    requires NamesDistinct(acc) && Counted(m) && NameIndex(acc, m.itemName).None?
    ensures var t := Tally(acc, m);
      NamesDistinct(t) && AccNames(t) == AccNames(acc) + {m.itemName} &&
      forall n :: QtyOf(t, n) == QtyOf(acc, n) + (if m.itemName == n then Abs(m.quantity) else 0)
  {
    var t := Tally(acc, m);
    assert t == acc + [UsageRow(m.itemName, Abs(m.quantity))];
    assert forall j :: 0 <= j < |acc| ==> t[j] == acc[j];
    assert AccNames(t) == AccNames(acc) + {m.itemName} by {
      forall x | x in AccNames(t) ensures x in AccNames(acc) + {m.itemName} {
        var j :| 0 <= j < |t| && t[j].name == x;
        if j < |acc| {
          assert t[j] == acc[j];
        }
      }
      assert t[|acc|].name == m.itemName;
      forall x | x in AccNames(acc) ensures x in AccNames(t) {
        var j :| 0 <= j < |acc| && acc[j].name == x;
        assert t[j].name == x;
      }
    }
    forall n ensures QtyOf(t, n) == QtyOf(acc, n) + (if m.itemName == n then Abs(m.quantity) else 0) {
      if n == m.itemName {
        NameIndexOfRow(t, |acc|);
      } else {
        SameNamesSameIndex(acc, t, n);
      }
    }
  }

  lemma TallyStep(acc: seq<UsageRow>, m: MovementRow)
    requires NamesDistinct(acc)
    ensures var t := Tally(acc, m);
      NamesDistinct(t) &&
      AccNames(t) == AccNames(acc) + (if Counted(m) then {m.itemName} else {}) &&
      forall n :: QtyOf(t, n) == QtyOf(acc, n) + (if Counted(m) && m.itemName == n then Abs(m.quantity) else 0)
  {
    if Counted(m) {
      match NameIndex(acc, m.itemName)
      case Some(k) => TallyExisting(acc, m, k);
      case None => TallyNew(acc, m);
    }
  }

  lemma {:induction false} TallyAllTotals(acc: seq<UsageRow>, ms: seq<MovementRow>)
    requires NamesDistinct(acc)
    decreases ms
    ensures var t := TallyAll(acc, ms);
      NamesDistinct(t) && AccNames(t) == AccNames(acc) + CountedNames(ms) &&
      forall n :: QtyOf(t, n) == QtyOf(acc, n) + UsageOf(ms, n)
  {
    if ms == [] {
      assert CountedNames(ms) == {};
    } else {
      TallyStep(acc, ms[0]);
      TallyAllTotals(Tally(acc, ms[0]), ms[1..]);
      assert CountedNames(ms) == (if Counted(ms[0]) then {ms[0].itemName} else {}) + CountedNames(ms[1..]) by {
        forall x | x in CountedNames(ms[1..]) ensures x in CountedNames(ms) {
          var j :| 0 <= j < |ms[1..]| && Counted(ms[1..][j]) && ms[1..][j].itemName == x;
          assert ms[j + 1] == ms[1..][j];
        }
        forall x | x in CountedNames(ms) ensures x in (if Counted(ms[0]) then {ms[0].itemName} else {}) + CountedNames(ms[1..]) {
          var j :| 0 <= j < |ms| && Counted(ms[j]) && ms[j].itemName == x;
          if j > 0 {
            assert ms[1..][j - 1] == ms[j];
          }
        }
      }
    }
  }

  /** The comparator of the usage report: larger total first. */
  function HeavierUse(a: UsageRow, b: UsageRow): bool
  {
    a.quantity > b.quantity
  }

  /** generateUsageReport: per item name the sum of |quantity| over its in-window exits and
      loans, largest first. */
  function UsageReport(items: seq<Item>, start: int, end: int): seq<UsageRow>
  {
    SortBy(TallyAll([], MovementReport(items, start, end)), HeavierUse)
  }

  /** Reordering a tally keeps its names distinct. */
  lemma PermutedNamesDistinct(r: seq<UsageRow>, t: seq<UsageRow>)
    requires multiset(r) == multiset(t) && NamesDistinct(t)
    ensures NamesDistinct(r)
  {
    forall i, j | 0 <= i < j < |r| ensures r[i].name != r[j].name {
      if r[i].name == r[j].name {
        assert r[i] in multiset(t) && r[j] in multiset(t);
        SameNameSameRow(t, r[i], r[j]);
        TwiceInMultiset(r, i, j);
        DistinctOnce(t, r[i]);
      }
    }
  }

  lemma SameNameSameRow(t: seq<UsageRow>, x: UsageRow, y: UsageRow)
    requires NamesDistinct(t) && x in t && y in t && x.name == y.name
    ensures x == y
  {
  }

  /** One row per name that has an exit or a loan in the window, carrying its total usage,
      the rows in descending total. */
  lemma UsageReportProperties(items: seq<Item>, start: int, end: int)
    ensures var ms := MovementReport(items, start, end);
      var r := UsageReport(items, start, end);
      NamesDistinct(r) &&
      (forall i, j :: 0 <= i < j < |r| ==> r[i].quantity >= r[j].quantity) &&
      (forall k :: 0 <= k < |r| ==> r[k].quantity == UsageOf(ms, r[k].name)) &&
      (forall n :: (exists k :: 0 <= k < |r| && r[k].name == n) <==> n in CountedNames(ms))
  {
    var ms := MovementReport(items, start, end);
    var t := TallyAll([], ms);
    var r := SortBy(t, HeavierUse);
    TallyAllTotals([], ms);
    assert AccNames(t) == CountedNames(ms);
    SortByPermutes(t, HeavierUse);
    assert StrictWeakOrder(HeavierUse);
    SortBySorted(t, HeavierUse);
    PermutedNamesDistinct(r, t);
    UsageRowsFromTally(r, t, ms);
  }

  /** The rows of a reordered tally carry the tally's totals and its names. */
  lemma UsageRowsFromTally(r: seq<UsageRow>, t: seq<UsageRow>, ms: seq<MovementRow>)
    requires multiset(r) == multiset(t) && NamesDistinct(t) && AccNames(t) == CountedNames(ms)
    requires forall n :: QtyOf(t, n) == UsageOf(ms, n)
    ensures forall k :: 0 <= k < |r| ==> r[k].quantity == UsageOf(ms, r[k].name)
    ensures forall n :: (exists k :: 0 <= k < |r| && r[k].name == n) <==> n in CountedNames(ms)
  {
    forall k | 0 <= k < |r| ensures r[k].quantity == UsageOf(ms, r[k].name) && r[k].name in CountedNames(ms) {
      assert r[k] in multiset(t);
      var p :| 0 <= p < |t| && t[p] == r[k];
      NameIndexOfRow(t, p);
    }
    forall n | n in CountedNames(ms) ensures exists k :: 0 <= k < |r| && r[k].name == n {
      var p :| 0 <= p < |t| && t[p].name == n;
      assert t[p] in multiset(r);
    }
  }

  // ---- stock level report ----

  /** currentStock / minStock * 100 >= level, for a positive minStock, in exact arithmetic;
      a missing level compares false, as a comparison with undefined does. */
  predicate AtLeast(currentStock: int, minStock: int, level: Option<int>)
    requires minStock > 0
  {
    level.Some? && currentStock * 100 >= level.value * minStock
  }

  /** The status of one item against the ok and medium percentages. */
  function StockStatus(currentStock: int, minStock: int, ok: Option<int>, medium: Option<int>): (s: string)
    ensures s in {"N/A", "ZERADO", "OK", "MÉDIO", "BAIXO"}
    ensures s == "N/A" <==> minStock <= 0
    ensures s == "ZERADO" <==> minStock > 0 && currentStock <= 0
  {
    if minStock <= 0 then "N/A"
    else if currentStock <= 0 then "ZERADO"
    else if AtLeast(currentStock, minStock, ok) then "OK"
    else if AtLeast(currentStock, minStock, medium) then "MÉDIO"
    else "BAIXO"
  }

  /** The statuses from worst to best. */
  function StatusRank(s: string): int
  {
    if s == "ZERADO" then 0 else if s == "BAIXO" then 1 else if s == "MÉDIO" then 2 else 3
  }

  /** With the same minimum, more stock never gives a worse status. */
  lemma MoreStockNoWorse(c1: int, c2: int, minStock: int, ok: Option<int>, medium: Option<int>)
    requires minStock > 0 && c1 <= c2
    ensures StatusRank(StockStatus(c1, minStock, ok, medium)) <= StatusRank(StockStatus(c2, minStock, ok, medium))
  {
    if c1 > 0 && AtLeast(c1, minStock, ok) {
      assert AtLeast(c2, minStock, ok);
    }
    if c1 > 0 && AtLeast(c1, minStock, medium) {
      assert AtLeast(c2, minStock, medium);
    }
  }

  datatype LevelRow = LevelRow(name: string, currentStock: int, minStock: int, status: string)

  function LevelRowOf(it: Item, ok: Option<int>, medium: Option<int>): LevelRow
  {
    LevelRow(it.name, it.currentStock, it.minStock, StockStatus(it.currentStock, it.minStock, ok, medium))
  }

  /** Code-unit order on strings: a proper prefix first, else the first differing unit decides. */
  predicate StringBefore(a: string, b: string)
  {
    if a == [] then b != []
    else if b == [] then false
    else if a[0] != b[0] then a[0] < b[0]
    else StringBefore(a[1..], b[1..])
  }

  lemma {:induction false} StringBeforeIrreflexive(a: string)
    ensures !StringBefore(a, a)
  {
    if a != [] {
      StringBeforeIrreflexive(a[1..]);
    }
  }

  lemma {:induction false} StringBeforeAsymmetric(a: string, b: string)
    requires StringBefore(a, b)
    ensures !StringBefore(b, a)
  {
    if a != [] && b != [] && a[0] == b[0] {
      StringBeforeAsymmetric(a[1..], b[1..]);
    }
  }

  lemma {:induction false} StringBeforeSplits(a: string, b: string, c: string)
    requires StringBefore(a, c)
    ensures StringBefore(a, b) || StringBefore(b, c)
  {
    if a != [] && b != [] && c != [] && a[0] == b[0] && b[0] == c[0] {
      StringBeforeSplits(a[1..], b[1..], c[1..]);
    }
  }

  function ByName(a: LevelRow, b: LevelRow): bool
  {
    StringBefore(a.name, b.name)
  }

  lemma ByNameIsStrictWeak()
    ensures StrictWeakOrder(ByName)
  {
    forall a: LevelRow ensures !ByName(a, a) {
      StringBeforeIrreflexive(a.name);
    }
    forall a: LevelRow, b: LevelRow | ByName(a, b) ensures !ByName(b, a) {
      StringBeforeAsymmetric(a.name, b.name);
    }
    forall a: LevelRow, b: LevelRow, c: LevelRow | ByName(a, c) ensures ByName(a, b) || ByName(b, c) {
      StringBeforeSplits(a.name, b.name, c.name);
    }
  }

  function LevelRows(items: seq<Item>, ok: Option<int>, medium: Option<int>): (r: seq<LevelRow>)
    ensures |r| == |items| && forall k :: 0 <= k < |r| ==> r[k] == LevelRowOf(items[k], ok, medium)
  {
    seq(|items|, k requires 0 <= k < |items| => LevelRowOf(items[k], ok, medium))
  }

  /** generateStockLevelReport: nothing when the settings have no stock levels; otherwise one
      row per item, sorted by name. */
  function StockLevelReport(items: seq<Item>, settings: map<string, Value>): seq<LevelRow>
  {
    if "stockLevels" !in settings || !Truthy(settings["stockLevels"]) then []
    else
      var ok := SubNum(settings, "stockLevels", "ok");
      var medium := SubNum(settings, "stockLevels", "medium");
      SortBy(LevelRows(items, ok, medium), ByName)
  }

  /** With stock levels, the report is a reordering of the rows of all items (each with its
      status), and no row is after a row with a name before its own. */
  lemma StockLevelReportProperties(items: seq<Item>, settings: map<string, Value>)
    requires "stockLevels" in settings && Truthy(settings["stockLevels"])
    ensures var ok := SubNum(settings, "stockLevels", "ok");
      var medium := SubNum(settings, "stockLevels", "medium");
      var r := StockLevelReport(items, settings);
      multiset(r) == multiset(LevelRows(items, ok, medium)) &&
      (forall i, j :: 0 <= i < j < |r| ==> !StringBefore(r[j].name, r[i].name)) &&
      (forall k :: 0 <= k < |r| ==> r[k].status == StockStatus(r[k].currentStock, r[k].minStock, ok, medium))
  {
    var ok := SubNum(settings, "stockLevels", "ok");
    var medium := SubNum(settings, "stockLevels", "medium");
    var rows := LevelRows(items, ok, medium);
    var r := StockLevelReport(items, settings);
    SortByPermutes(rows, ByName);
    ByNameIsStrictWeak();
    SortBySorted(rows, ByName);
    forall k | 0 <= k < |r| ensures r[k].status == StockStatus(r[k].currentStock, r[k].minStock, ok, medium) {
      assert r[k] in multiset(rows);
    }
  }

  // ---- stock value and purchase suggestion ----

  datatype ValueRow = ValueRow(name: string, totalStock: int, price: real, totalValue: real)

  datatype ValueReport = ValueReport(items: seq<ValueRow>, grandTotal: real)

  function ValueRowOf(it: Item): ValueRow
  {
    ValueRow(it.name, it.totalStock, it.price, (it.totalStock as real) * it.price)
  }

  predicate InStock(it: Item)
  {
    it.totalStock > 0
  }

  function ValueRows(items: seq<Item>): (r: seq<ValueRow>)
    ensures |r| == |items| && forall k :: 0 <= k < |r| ==> r[k] == ValueRowOf(items[k])
  {
    if items == [] then [] else [ValueRowOf(items[0])] + ValueRows(items[1..])
  }

  function SumValues(rows: seq<ValueRow>): real
  {
    if rows == [] then 0.0 else rows[0].totalValue + SumValues(rows[1..])
  }

  /** generateStockValueReport: one pass that lists each item with stock and adds its value
      to the grand total. */
  function StockValueReport(items: seq<Item>): ValueReport
  {
    if items == [] then ValueReport([], 0.0)
    else
      var rest := StockValueReport(items[1..]);
      if InStock(items[0]) then
        var row := ValueRowOf(items[0]);
        ValueReport([row] + rest.items, row.totalValue + rest.grandTotal)
      else rest
  }

  /** The rows are those of the items with stock, in list order. */
  lemma {:induction false} StockValueRows(items: seq<Item>)
    ensures StockValueReport(items).items == ValueRows(Filter(items, InStock))
  {
    if items != [] {
      StockValueRows(items[1..]);
      var f := Filter(items, InStock);
      if InStock(items[0]) {
        assert f[0] == items[0] && f[1..] == Filter(items[1..], InStock);
      } else {
        assert f == Filter(items[1..], InStock);
      }
    }
  }

  /** The grand total is the sum of the listed values. */
  lemma {:induction false} StockValueTotal(items: seq<Item>)
    ensures StockValueReport(items).grandTotal == SumValues(StockValueReport(items).items)
  {
    if items != [] {
      StockValueTotal(items[1..]);
      if InStock(items[0]) {
        var r := StockValueReport(items);
        assert r.items[1..] == StockValueReport(items[1..]).items;
      }
    }
  }

  /** With no negative price the grand total is not negative. */
  lemma {:induction false} StockValueNonNegative(items: seq<Item>)
    requires forall k :: 0 <= k < |items| ==> items[k].price >= 0.0
    ensures StockValueReport(items).grandTotal >= 0.0
  {
    if items != [] {
      StockValueNonNegative(items[1..]);
      if InStock(items[0]) {
        var t := items[0].totalStock as real;
        assert t >= 0.0;
        assert ValueRowOf(items[0]).totalValue >= 0.0;
      }
    }
  }

  datatype SuggestionRow = SuggestionRow(name: string, currentStock: int, minStock: int, quantityToBuy: int, estimatedCost: real)

  datatype SuggestionReport = SuggestionReport(items: seq<SuggestionRow>, grandTotal: real)

  /** An item to reorder: it has a minimum and is below it. */
  predicate BelowMinimum(it: Item)
  {
    it.minStock > 0 && it.currentStock < it.minStock
  }

  function SuggestionRowOf(it: Item): SuggestionRow
  {
    var q := it.minStock - it.currentStock;
    SuggestionRow(it.name, it.currentStock, it.minStock, q, (q as real) * it.price)
  }

  function SuggestionRows(items: seq<Item>): (r: seq<SuggestionRow>)
    ensures |r| == |items| && forall k :: 0 <= k < |r| ==> r[k] == SuggestionRowOf(items[k])
  {
    if items == [] then [] else [SuggestionRowOf(items[0])] + SuggestionRows(items[1..])
  }

  function SumCosts(rows: seq<SuggestionRow>): real
  {
    if rows == [] then 0.0 else rows[0].estimatedCost + SumCosts(rows[1..])
  }

  /** generatePurchaseSuggestionReport: one pass listing each item below its minimum with the
      quantity that brings it back to the minimum, adding the cost to the grand total. Every
      quantity to buy is positive and fills the gap to the minimum. */
  function PurchaseSuggestionReport(items: seq<Item>): (r: SuggestionReport)
    ensures forall k :: 0 <= k < |r.items| ==>
      r.items[k].quantityToBuy > 0 && r.items[k].quantityToBuy == r.items[k].minStock - r.items[k].currentStock
  {
    if items == [] then SuggestionReport([], 0.0)
    else
      var rest := PurchaseSuggestionReport(items[1..]);
      if BelowMinimum(items[0]) then
        var row := SuggestionRowOf(items[0]);
        SuggestionReport([row] + rest.items, row.estimatedCost + rest.grandTotal)
      else rest
  }

  /** The rows are those of the items below their minimum, in list order. */
  lemma {:induction false} PurchaseSuggestionRows(items: seq<Item>)
    ensures PurchaseSuggestionReport(items).items == SuggestionRows(Filter(items, BelowMinimum))
  {
    if items != [] {
      PurchaseSuggestionRows(items[1..]);
      var f := Filter(items, BelowMinimum);
      if BelowMinimum(items[0]) {
        assert f[0] == items[0] && f[1..] == Filter(items[1..], BelowMinimum);
      } else {
        assert f == Filter(items[1..], BelowMinimum);
      }
    }
  }

  /** The grand total is the sum of the listed costs. */
  lemma {:induction false} PurchaseSuggestionTotal(items: seq<Item>)
    ensures PurchaseSuggestionReport(items).grandTotal == SumCosts(PurchaseSuggestionReport(items).items)
  {
    if items != [] {
      PurchaseSuggestionTotal(items[1..]);
      if BelowMinimum(items[0]) {
        var r := PurchaseSuggestionReport(items);
        assert r.items[1..] == PurchaseSuggestionReport(items[1..]).items;
      }
    }
  }
}
