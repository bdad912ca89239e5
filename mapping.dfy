/** js/modules/mapping.js: locations in the warehouse grid. A slot is an aisle, a shelf in
    1..shelvesPerAisle and a box in 1..boxesPerShelf, known by its key "aisle-shelf-box".
    suggestLocation returns the first slot whose key is not occupied, trying first the aisles
    that already hold items of the same type (most used first) and then the configured ones. */
module Mapping {
  import opened Common
  import opened Config
  import opened Items
  import opened Sorting

  // ---- generateLocation ----

  /** generateLocation: the aisle trimmed and upper-cased, shelf and box trimmed. */
  function GenerateLocation(aisle: string, shelf: string, box: string): (loc: Location)
    ensures ToUpper(loc.aisle) == loc.aisle
    ensures loc.aisle == [] <==> IsBlank(aisle)
  {
    TrimEmptyIffBlank(aisle);
    UpperIdempotent(Trim(aisle));
    Location(ToUpper(Trim(aisle)), Trim(shelf), Trim(box))
  }

  // ---- the aisles setting ----

  /** String.prototype.split(','): the pieces between commas, at least one. */
  function Split(s: string): (r: seq<string>)
    ensures |r| >= 1
    ensures forall k :: 0 <= k < |r| ==> ',' !in r[k]
    decreases |s|
  {
    match FirstIndex(s, (c: char) => c == ',')
    case None => [s]
    case Some(i) => [s[..i]] + Split(s[i + 1..])
  }

  /** Array.prototype.join(','). */
  function Join(parts: seq<string>): string
  {
    if parts == [] then [] else if |parts| == 1 then parts[0] else parts[0] + "," + Join(parts[1..])
  }

  /** Joining the pieces gives back the text. */
  lemma {:induction false} JoinSplit(s: string)
    ensures Join(Split(s)) == s
    decreases |s|
  {
    match FirstIndex(s, (c: char) => c == ',')
    case None =>
    case Some(i) =>
      JoinSplit(s[i + 1..]);
      assert s == s[..i] + "," + s[i + 1..];
  }

  /** Splitting a join of comma-free pieces gives back the pieces. */
  lemma {:induction false} SplitJoin(parts: seq<string>)
    requires |parts| >= 1 && forall k :: 0 <= k < |parts| ==> ',' !in parts[k]
    ensures Split(Join(parts)) == parts
  {
    if |parts| > 1 {
      var s := Join(parts);
      var p := parts[0];
      assert s == p + "," + Join(parts[1..]);
      assert s[|p|] == ',';
      assert forall k :: 0 <= k < |p| ==> s[k] == p[k];
      var i := FirstIndex(s, (c: char) => c == ',');
      assert i == Some(|p|);
      assert s[..|p|] == p && s[|p| + 1..] == Join(parts[1..]);
      SplitJoin(parts[1..]);
    } else {
      assert FirstIndex(parts[0], (c: char) => c == ',').None?;
    }
  }

  /** Each piece trimmed and upper-cased (a.trim().toUpperCase()). */
  function Normalized(pieces: seq<string>): (r: seq<string>)
    ensures |r| == |pieces| && forall k :: 0 <= k < |r| ==> r[k] == ToUpper(Trim(pieces[k]))
  {
    if pieces == [] then [] else [ToUpper(Trim(pieces[0]))] + Normalized(pieces[1..])
  }

  /** The aisles of the setting: split on ',', trimmed, upper-cased, empty entries dropped. */
  function ParseAisles(text: string): seq<string>
  {
    Filter(Normalized(Split(text)), (a: string) => a != "")
  }

  /** Every aisle is non-empty, free of commas and in upper case, and every piece that is not
      blank gives one. */
  lemma ParseAislesShape(text: string)
    ensures var r := ParseAisles(text);
      forall k :: 0 <= k < |r| ==> r[k] != "" && ',' !in r[k] && ToUpper(r[k]) == r[k]
    ensures forall k :: 0 <= k < |Split(text)| && !IsBlank(Split(text)[k]) ==>
              ToUpper(Trim(Split(text)[k])) in ParseAisles(text)
  {
    var pieces := Split(text);
    var r := ParseAisles(text);
    forall k | 0 <= k < |r| ensures ',' !in r[k] && ToUpper(r[k]) == r[k] {
      var j :| 0 <= j < |pieces| && r[k] == ToUpper(Trim(pieces[j]));
      TrimWithin(pieces[j]);
      UpperKeepsCommas(Trim(pieces[j]));
      UpperIdempotent(Trim(pieces[j]));
    }
    forall k | 0 <= k < |pieces| && !IsBlank(pieces[k]) ensures ToUpper(Trim(pieces[k])) in r {
      TrimEmptyIffBlank(pieces[k]);
      assert Normalized(pieces)[k] == ToUpper(Trim(pieces[k]));
    }
  }

  // ---- keys and occupancy ----

  function SlotKey(aisle: string, shelf: string, box: string): string
  {
    aisle + "-" + shelf + "-" + box
  }

  function LocationKey(loc: Location): string
  {
    SlotKey(loc.aisle, loc.shelf, loc.box)
  }

  /** A slot of the grid, with its shelf and box numbers. */
  datatype Slot = Slot(aisle: string, shelf: nat, box: nat)

  function GridKey(aisle: string, shelf: nat, box: nat): string
  {
    SlotKey(aisle, NatToString(shelf), NatToString(box))
  }

  /** The location suggestLocation returns for a slot, shelf and box as decimal text. */
  function SlotLocation(sl: Slot): (loc: Location)
    ensures LocationKey(loc) == GridKey(sl.aisle, sl.shelf, sl.box)
  {
    Location(sl.aisle, NatToString(sl.shelf), NatToString(sl.box))
  }

  /** Aisle, shelf and box all filled in. */
  predicate Shelved(it: Item)
  {
    it.location.Some? && it.location.value.aisle != "" && it.location.value.shelf != "" && it.location.value.box != ""
  }

  /** The keys in use when suggestLocation is given no occupied set. */
  function OccupiedKeys(items: seq<Item>): (occ: set<string>)
    ensures forall k :: 0 <= k < |items| && Shelved(items[k]) ==> LocationKey(items[k].location.value) in occ
    ensures forall key :: key in occ ==> exists k :: 0 <= k < |items| && Shelved(items[k]) && LocationKey(items[k].location.value) == key
  {
    set k | 0 <= k < |items| && Shelved(items[k]) :: LocationKey(items[k].location.value)
  }

  // ---- the first-free search ----

  /** Every box of the aisle is occupied. */
  predicate AisleFull(aisle: string, shelves: int, boxes: int, occ: set<string>)
  {
    forall x: nat, y: nat :: 1 <= x <= shelves && 1 <= y <= boxes ==> GridKey(aisle, x, y) in occ
  }

  /** The first free box of a shelf from box b on. */
  function FirstBox(aisle: string, shelf: nat, b: nat, boxes: int, occ: set<string>): (r: Option<nat>)
    requires b >= 1
    ensures r.Some? ==> b <= r.value <= boxes && GridKey(aisle, shelf, r.value) !in occ &&
                        forall y: nat :: b <= y < r.value ==> GridKey(aisle, shelf, y) in occ
    ensures r.None? ==> forall y: nat :: b <= y <= boxes ==> GridKey(aisle, shelf, y) in occ
    decreases if boxes >= b then boxes - b + 1 else 0
  {
    if b > boxes then None
    else if GridKey(aisle, shelf, b) !in occ then Some(b)
    else FirstBox(aisle, shelf, b + 1, boxes, occ)
  }

  /** The first free slot of an aisle from shelf s on, shelf by shelf and box by box. */
  function FirstInAisle(aisle: string, s: nat, shelves: int, boxes: int, occ: set<string>): (r: Option<Slot>)
    requires s >= 1
    ensures r.Some? ==> r.value.aisle == aisle && s <= r.value.shelf <= shelves && 1 <= r.value.box <= boxes &&
                        GridKey(aisle, r.value.shelf, r.value.box) !in occ
    ensures r.Some? ==> (forall x: nat, y: nat :: s <= x < r.value.shelf && 1 <= y <= boxes ==> GridKey(aisle, x, y) in occ) &&
                        (forall y: nat :: 1 <= y < r.value.box ==> GridKey(aisle, r.value.shelf, y) in occ)
    ensures r.None? ==> forall x: nat, y: nat :: s <= x <= shelves && 1 <= y <= boxes ==> GridKey(aisle, x, y) in occ
    decreases if shelves >= s then shelves - s + 1 else 0
  {
    if s > shelves then None
    else match FirstBox(aisle, s, 1, boxes, occ)
      case Some(b) => Some(Slot(aisle, s, b))
      case None => FirstInAisle(aisle, s + 1, shelves, boxes, occ)
  }

  /** The first free slot over a list of aisles, in list order. */
  function FirstSlot(aisles: seq<string>, shelves: int, boxes: int, occ: set<string>): (r: Option<Slot>)
    ensures r.Some? ==> r.value.aisle in aisles && 1 <= r.value.shelf <= shelves && 1 <= r.value.box <= boxes &&
                        GridKey(r.value.aisle, r.value.shelf, r.value.box) !in occ
  {
    if aisles == [] then None
    else match FirstInAisle(aisles[0], 1, shelves, boxes, occ)
      case Some(sl) => Some(sl)
      case None => FirstSlot(aisles[1..], shelves, boxes, occ)
  }

  /** The slot found is the first free one of the first aisle that is not full, and there is
      none exactly when every aisle is full. */
  lemma {:induction false} FirstSlotIsFirst(aisles: seq<string>, shelves: int, boxes: int, occ: set<string>)
    ensures var r := FirstSlot(aisles, shelves, boxes, occ);
      (r.Some? ==> exists i :: 0 <= i < |aisles| && aisles[i] == r.value.aisle &&
                     (forall j :: 0 <= j < i ==> AisleFull(aisles[j], shelves, boxes, occ)) &&
                     r == FirstInAisle(aisles[i], 1, shelves, boxes, occ)) &&
      (r.None? <==> forall i :: 0 <= i < |aisles| ==> AisleFull(aisles[i], shelves, boxes, occ))
  {
    if aisles != [] {
      var first := FirstInAisle(aisles[0], 1, shelves, boxes, occ);
      if first.Some? {
        var sl := first.value;
        assert !AisleFull(aisles[0], shelves, boxes, occ) by {
          assert GridKey(aisles[0], sl.shelf, sl.box) !in occ;
        }
      } else {
        assert AisleFull(aisles[0], shelves, boxes, occ);
        FirstSlotIsFirst(aisles[1..], shelves, boxes, occ);
        var r := FirstSlot(aisles[1..], shelves, boxes, occ);
        if r.Some? {
          var i :| 0 <= i < |aisles[1..]| && aisles[1..][i] == r.value.aisle &&
                   (forall j :: 0 <= j < i ==> AisleFull(aisles[1..][j], shelves, boxes, occ)) &&
                   r == FirstInAisle(aisles[1..][i], 1, shelves, boxes, occ);
          assert aisles[i + 1] == r.value.aisle;
          forall j | 0 <= j < i + 1 ensures AisleFull(aisles[j], shelves, boxes, occ) {
            if j > 0 { assert aisles[j] == aisles[1..][j - 1]; }
          }
        } else {
          forall i | 0 <= i < |aisles| ensures AisleFull(aisles[i], shelves, boxes, occ) {
            if i > 0 { assert aisles[i] == aisles[1..][i - 1]; }
          }
        }
      }
    }
  }

  // ---- the aisles already used by a type ----

  /** The aisles of the items of that type that have one, in list order, with repeats. */
  function TypeAisles(items: seq<Item>, itemType: string): (r: seq<string>)
    ensures forall a :: a in r ==> a != ""
  {
    if items == [] then []
    else (if items[0].itemType == itemType && items[0].location.Some? && items[0].location.value.aisle != ""
          then [items[0].location.value.aisle] else []) + TypeAisles(items[1..], itemType)
  }

  /** The distinct elements, in order of first occurrence (the keys of the score object). */
  function Distinct(s: seq<string>, seen: set<string>): (r: seq<string>)
    ensures forall i, j :: 0 <= i < j < |r| ==> r[i] != r[j]
    ensures forall a :: a in r <==> a in s && a !in seen
  {
    if s == [] then []
    else if s[0] in seen then Distinct(s[1..], seen)
    else [s[0]] + Distinct(s[1..], seen + {s[0]})
  }

  /** "a sorts before b": a is used by more items of the type (the comparator b - a). */
  function MoreUsed(uses: seq<string>): (string, string) -> bool
  {
    (a: string, b: string) => multiset(uses)[b] < multiset(uses)[a]
  }

  lemma MoreUsedIsStrictWeak(uses: seq<string>)
    ensures StrictWeakOrder(MoreUsed(uses))
  {
  }

  /** The aisles tried first for a type: each aisle holding an item of that type once, most
      items first, ties in order of first occurrence. */
  function PreferredAisles(items: seq<Item>, itemType: string): seq<string>
  {
    var uses := TypeAisles(items, itemType);
    SortBy(Distinct(uses, {}), MoreUsed(uses))
  }

  /** The preferred aisles are exactly the aisles of the type's items. */
  lemma PreferredAislesMembers(items: seq<Item>, itemType: string)
    ensures forall a :: a in PreferredAisles(items, itemType) <==> a in TypeAisles(items, itemType)
  {
    var uses := TypeAisles(items, itemType);
    var d := Distinct(uses, {});
    var p := SortBy(d, MoreUsed(uses));
    SortByPermutes(d, MoreUsed(uses));
    forall a ensures a in p <==> a in d {
      assert a in p <==> a in multiset(p);
      assert a in d <==> a in multiset(d);
    }
  }

  /** Each of them once. */
  lemma PreferredAislesDistinct(items: seq<Item>, itemType: string)
    ensures var p := PreferredAisles(items, itemType);
      forall i, j :: 0 <= i < j < |p| ==> p[i] != p[j]
  {
    var uses := TypeAisles(items, itemType);
    var d := Distinct(uses, {});
    var p := SortBy(d, MoreUsed(uses));
    SortByPermutes(d, MoreUsed(uses));
    forall i, j | 0 <= i < j < |p| ensures p[i] != p[j] {
      if p[i] == p[j] {
        TwiceInMultiset(p, i, j);
        DistinctOnce(d, p[i]);
      }
    }
  }

  /** In descending number of items of the type. */
  lemma PreferredAislesSorted(items: seq<Item>, itemType: string)
    ensures var uses := TypeAisles(items, itemType);
      var p := PreferredAisles(items, itemType);
      forall i, j :: 0 <= i < j < |p| ==> multiset(uses)[p[j]] <= multiset(uses)[p[i]]
  {
    var uses := TypeAisles(items, itemType);
    MoreUsedIsStrictWeak(uses);
    SortBySorted(Distinct(uses, {}), MoreUsed(uses));
  }

  // ---- suggestLocation ----

  /** The layout as read from the settings: aisles, shelves per aisle, boxes per shelf. */
  datatype Layout = Layout(aisles: seq<string>, shelves: int, boxes: int)

  function LayoutOf(settings: map<string, Value>): Layout
  {
    Layout(ParseAisles(StrOf(settings, "aisles")), NumOf(settings, "shelvesPerAisle"), NumOf(settings, "boxesPerShelf"))
  }

  /** No aisles, no shelves or no boxes: nothing can be suggested. */
  predicate EmptyLayout(g: Layout)
  {
    |g.aisles| == 0 || g.shelves == 0 || g.boxes == 0
  }

  /** suggestLocation(itemType, occupied) on a layout: itemType "" stands for none, occupied
      None for a set built from the items' own locations. */
  function SuggestSlot(items: seq<Item>, g: Layout, itemType: string, occupied: Option<set<string>>): (r: Option<Slot>)
    ensures EmptyLayout(g) ==> r.None?
    ensures r.Some? ==> (1 <= r.value.shelf <= g.shelves && 1 <= r.value.box <= g.boxes &&
      GridKey(r.value.aisle, r.value.shelf, r.value.box) !in OccupiedOr(items, occupied) &&
      (r.value.aisle in g.aisles || r.value.aisle in TypeAisles(items, itemType)))
  {
    if EmptyLayout(g) then None
    else
      var occ := OccupiedOr(items, occupied);
      var preferred := if itemType != "" then FirstSlot(PreferredAisles(items, itemType), g.shelves, g.boxes, occ) else None;
      if preferred.Some? then
        PreferredAislesMembers(items, itemType);
        preferred
      else FirstSlot(g.aisles, g.shelves, g.boxes, occ)
  }

  function OccupiedOr(items: seq<Item>, occupied: Option<set<string>>): set<string>
  {
    if occupied.Some? then occupied.value else OccupiedKeys(items)
  }

  function SuggestLocation(items: seq<Item>, g: Layout, itemType: string, occupied: Option<set<string>>): (r: Option<Location>)
    ensures r.Some? ==> LocationKey(r.value) !in OccupiedOr(items, occupied)
    ensures r.None? <==> SuggestSlot(items, g, itemType, occupied).None?
  {
    match SuggestSlot(items, g, itemType, occupied)
    case Some(sl) => Some(SlotLocation(sl))
    case None => None
  }

  /** Using more keys never frees a slot: once the search finds nothing, it finds nothing with
      more keys in use. */
  lemma FirstSlotNoneGrows(aisles: seq<string>, shelves: int, boxes: int, occ1: set<string>, occ2: set<string>)
    requires occ1 <= occ2 && FirstSlot(aisles, shelves, boxes, occ1).None?
    ensures FirstSlot(aisles, shelves, boxes, occ2).None?
  {
    FirstSlotIsFirst(aisles, shelves, boxes, occ1);
    FirstSlotIsFirst(aisles, shelves, boxes, occ2);
    forall i | 0 <= i < |aisles| ensures AisleFull(aisles[i], shelves, boxes, occ2) {
      assert AisleFull(aisles[i], shelves, boxes, occ1);
    }
  }

  /** Once suggestLocation has no slot for a type, it has none with more keys in use. */
  lemma SuggestionNoneGrows(items: seq<Item>, g: Layout, itemType: string, occ1: set<string>, occ2: set<string>)
    requires occ1 <= occ2 && SuggestLocation(items, g, itemType, Some(occ1)).None?
    ensures SuggestLocation(items, g, itemType, Some(occ2)).None?
  {
    if !EmptyLayout(g) {
      if itemType != "" {
        FirstSlotNoneGrows(PreferredAisles(items, itemType), g.shelves, g.boxes, occ1, occ2);
      }
      FirstSlotNoneGrows(g.aisles, g.shelves, g.boxes, occ1, occ2);
    }
  }

  /** Without a type, or when the type's aisles are full, the suggestion is the first free
      slot of the configured aisles; it is None exactly when they are all full. */
  lemma FallbackIsFirstFree(items: seq<Item>, g: Layout, itemType: string, occupied: Option<set<string>>)
    requires !EmptyLayout(g)
    requires itemType == "" ||
             forall a :: a in TypeAisles(items, itemType) ==> AisleFull(a, g.shelves, g.boxes, OccupiedOr(items, occupied))
    ensures SuggestSlot(items, g, itemType, occupied) == FirstSlot(g.aisles, g.shelves, g.boxes, OccupiedOr(items, occupied))
    ensures SuggestSlot(items, g, itemType, occupied).None? <==>
              forall i :: 0 <= i < |g.aisles| ==> AisleFull(g.aisles[i], g.shelves, g.boxes, OccupiedOr(items, occupied))
  {
    FirstSlotIsFirst(g.aisles, g.shelves, g.boxes, OccupiedOr(items, occupied));
    if itemType != "" {
      PreferredAislesMembers(items, itemType);
      FirstSlotIsFirst(PreferredAisles(items, itemType), g.shelves, g.boxes, OccupiedOr(items, occupied));
      var p := PreferredAisles(items, itemType);
      assert forall i :: 0 <= i < |p| ==> AisleFull(p[i], g.shelves, g.boxes, OccupiedOr(items, occupied)) by {
        forall i | 0 <= i < |p| ensures AisleFull(p[i], g.shelves, g.boxes, OccupiedOr(items, occupied)) {
          assert p[i] in p;
        }
      }
    }
  }

  /** With a type, a free slot in the type's aisles is preferred to any configured one. */
  lemma PreferredFirst(items: seq<Item>, g: Layout, itemType: string, occupied: Option<set<string>>)
    requires !EmptyLayout(g) && itemType != ""
    requires FirstSlot(PreferredAisles(items, itemType), g.shelves, g.boxes, OccupiedOr(items, occupied)).Some?
    ensures SuggestSlot(items, g, itemType, occupied) ==
              FirstSlot(PreferredAisles(items, itemType), g.shelves, g.boxes, OccupiedOr(items, occupied))
  {
  }
}
