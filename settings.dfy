/** The stateful half of js/modules/settings.js: saving settings (with the relocation a
    layout change triggers), the fill of initializeSettings as in-place loops, and
    addType / deleteType on the store. The value-level edits live in module Config. */
module Settings {
  import opened Common
  import opened Config
  import opened Items
  import opened Store
  import Mapping
  import Remapping

  /** The items after saving settings s over settings before: relocated with the new layout
      exactly when the aisles, the shelf count or the box count changed. */
  function AfterSave(items: seq<Item>, before: map<string, Value>, s: map<string, Value>): seq<Item>
  {
    if LayoutChanged(before, s) then Remapping.Reallocation(items, Mapping.LayoutOf(GetSettings(s))).items
    else items
  }

  /** saveSettings: s is stored as given; a layout change relocates unshelved items. */
  method SaveSettings(w: Warehouse, s: map<string, Value>)
    requires w.Valid()
    modifies w`storedSettings, w`items
    ensures w.Valid() && w.storedSettings == s
    ensures w.items == AfterSave(old(w.items), old(w.Settings()), s)
  {
    var changed := LayoutChanged(w.Settings(), s);
    w.storedSettings := s;
    if changed {
      var _ := Remapping.ReallocateUnshelvedItems(w);
    }
  }

  // ---- initializeSettings ----

  /** The object default d filled into v after the sub-keys in done were visited. */
  function FillPart(v: Value, d: map<string, Value>, done: set<string>): Value
    requires done <= d.Keys
  {
    if v.Obj? then Obj((map k | k in done :: d[k]) + v.fields)
    else if !Truthy(v) && done != {} then Obj(d)
    else v
  }

  /** Some sub-key among done was missing from v. */
  predicate MissingIn(v: Value, d: map<string, Value>, done: set<string>)
  {
    exists sub :: sub in done && sub in d && !(v.Obj? && sub in v.fields)
  }

  /** One visit of sub-key sub to the value r: the new value. */
  function NextPart(r: Value, d: map<string, Value>, sub: string): Value
    requires sub in d
  {
    if Truthy(r) && !(r.Obj? && sub in r.fields) then (if r.Obj? then Obj(r.fields[sub := d[sub]]) else r)
    else if !Truthy(r) then Obj(d)
    else r
  }

  /** Does visiting sub-key sub of r flag an update? */
  predicate SubMissing(r: Value, sub: string)
  {
    !Truthy(r) || !(r.Obj? && sub in r.fields)
  }

  lemma FillPartStep(v: Value, d: map<string, Value>, done: set<string>, sub: string)
    requires done <= d.Keys && sub in d && sub !in done
    ensures FillPart(v, d, done + {sub}) == NextPart(FillPart(v, d, done), d, sub)
    ensures MissingIn(v, d, done + {sub}) <==> MissingIn(v, d, done) || SubMissing(FillPart(v, d, done), sub)
  {
    var r := FillPart(v, d, done);
    if v.Obj? {
      var m := map k | k in done :: d[k];
      var m' := map k | k in done + {sub} :: d[k];
      assert m' == m[sub := d[sub]];
      if sub in v.fields {
        assert m' + v.fields == m + v.fields;
      } else {
        assert m' + v.fields == (m + v.fields)[sub := d[sub]];
      }
    } else if !Truthy(v) && done != {} {
      var x :| x in done;
      assert MissingIn(v, d, done);
    }
  }

  /** The sub-key loop: a stored object gains each missing sub-key, a falsy value is
      replaced by the whole default, any other value is left (the assignment to a property
      of a primitive is lost). changed tells whether some sub-key was missing. */
  method FillObjectOn(v: Value, d: map<string, Value>) returns (r: Value, changed: bool)
    ensures r == FillObject(v, d)
    ensures changed <==> MissingIn(v, d, d.Keys)
  {
    r := v;
    changed := false;
    var todo := d.Keys;
    while todo != {}
      invariant todo <= d.Keys
      invariant r == FillPart(v, d, d.Keys - todo)
      invariant changed <==> MissingIn(v, d, d.Keys - todo)
      decreases |todo|
    {
      var sub :| sub in todo;
      ghost var done := d.Keys - todo;
      ghost var before := r;
      ghost var flagged := changed;
      if Truthy(r) && !(r.Obj? && sub in r.fields) {
        if r.Obj? {
          r := Obj(r.fields[sub := d[sub]]);
        }
        changed := true;
      } else if !Truthy(r) {
        r := Obj(d);
        changed := true;
      }
      todo := todo - {sub};
      assert r == NextPart(before, d, sub) && changed == (flagged || SubMissing(before, sub));
      FillPartStep(v, d, done, sub);
      assert d.Keys - todo == done + {sub};
    }
    assert d.Keys - todo == d.Keys;
    if v.Obj? {
      assert (map k | k in d.Keys :: d[k]) == d;
    }
  }

  /** Some default key among done needed an update. */
  predicate NeedsAmong(stored: map<string, Value>, d: map<string, Value>, done: set<string>)
    requires done <= d.Keys
  {
    exists key :: key in done && EntryNeedsUpdate(stored, d, key)
  }

  lemma FilledStep(stored: map<string, Value>, d: map<string, Value>, done: set<string>, key: string)
    requires done <= d.Keys && key in d && key !in done
    ensures var f := Filled(stored, d, done);
      (key in f <==> key in stored) && (key in stored ==> f[key] == stored[key]) &&
      Filled(stored, d, done + {key}) == f[key := FillEntry(stored, d, key)]
    ensures NeedsAmong(stored, d, done + {key}) <==> NeedsAmong(stored, d, done) || EntryNeedsUpdate(stored, d, key)
  {
  }

  /** One visit of the top-level loop: a missing key takes its default, a key whose default
      is an object has its sub-keys filled; flag tells whether anything was missing. */
  method FillKey(settings: map<string, Value>, stored: map<string, Value>, d: map<string, Value>, key: string)
    returns (next: map<string, Value>, flag: bool)
    requires key in d && (key in settings <==> key in stored)
    requires key in stored ==> settings[key] == stored[key]
    ensures next == settings[key := FillEntry(stored, d, key)]
    ensures flag == EntryNeedsUpdate(stored, d, key)
  {
    next, flag := settings, false;
    if key !in settings {
      next := settings[key := d[key]];
      flag := true;
    } else if d[key].Obj? {
      var filled, changed := FillObjectOn(settings[key], d[key].fields);
      next := settings[key := filled];
      flag := changed;
    } else {
      assert next == settings[key := FillEntry(stored, d, key)];
    }
  }

  /** The top-level loop over the default keys; needsUpdate tells whether anything was
      missing. */
  method FillOn(stored: map<string, Value>, d: map<string, Value>) returns (settings: map<string, Value>, needsUpdate: bool)
    ensures settings == Filled(stored, d, d.Keys)
    ensures needsUpdate <==> exists key :: key in d && EntryNeedsUpdate(stored, d, key)
  {
    settings := stored;
    needsUpdate := false;
    var todo := d.Keys;
    assert Filled(stored, d, d.Keys - todo) == stored;
    while todo != {}
      invariant todo <= d.Keys
      invariant settings == Filled(stored, d, d.Keys - todo)
      invariant needsUpdate <==> NeedsAmong(stored, d, d.Keys - todo)
      decreases |todo|
    {
      var key :| key in todo;
      ghost var done := d.Keys - todo;
      FilledStep(stored, d, done, key);
      var flag;
      settings, flag := FillKey(settings, stored, d, key);
      needsUpdate := needsUpdate || flag;
      todo := todo - {key};
      assert d.Keys - todo == done + {key};
    }
    assert d.Keys - todo == d.Keys;
  }

  /** initializeSettings: when the stored version is stale or some default key or sub-key is
      missing, the filled settings are stamped with the version and saved. */
  method InitializeSettings(w: Warehouse)
    requires w.Valid()
    modifies w`storedSettings, w`items
    ensures w.Valid()
    ensures var stored := old(w.storedSettings);
      if NeedsUpdate(stored) then
        var s := FillDefaults(stored)["_version" := Str(Version)];
        w.storedSettings == s && w.items == AfterSave(old(w.items), GetSettings(stored), s)
      else w.storedSettings == stored && w.items == old(w.items)
  {
    var stale := VersionStale(w.storedSettings);
    var settings, missing := FillOn(w.storedSettings, Defaults());
    if stale || missing {
      SaveSettings(w, settings["_version" := Str(Version)]);
    }
  }

  // ---- addType / deleteType ----

  /** Editing the type lists leaves the layout settings alone. */
  lemma TypeEditsKeepLayout(settings: map<string, Value>, t: string)
    requires TypeListsWellFormed(settings)
    ensures !LayoutChanged(settings, WithType(settings, t))
    ensures !LayoutChanged(settings, DeleteTypeFrom(settings, t))
  {
  }

  /** addType: the edit of AddTypeTo is saved; a refusal saves nothing. Items never move. */
  method AddType(w: Warehouse, newType: string) returns (ok: bool)
    requires w.Valid()
    modifies w`storedSettings, w`items
    ensures w.Valid() && w.items == old(w.items)
    ensures var r := AddTypeTo(old(w.Settings()), newType);
      ok == r.Some? && w.storedSettings == (if ok then r.value else old(w.storedSettings))
  {
    var settings := w.Settings();
    var r := AddTypeTo(settings, newType);
    if r.None? {
      return false;
    }
    TypeEditsKeepLayout(settings, Trim(newType));
    SaveSettings(w, r.value);
    ok := true;
  }

  /** Some item has type t. */
  predicate TypeInUse(items: seq<Item>, t: string)
  {
    exists i :: 0 <= i < |items| && items[i].itemType == t
  }

  /** deleteType: refused while an item has the type; otherwise DeleteTypeFrom's edit is saved.
      Items never move. */
  method DeleteType(w: Warehouse, t: string) returns (ok: bool)
    requires w.Valid()
    modifies w`storedSettings, w`items
    ensures w.Valid() && w.items == old(w.items)
    ensures ok <==> !TypeInUse(old(w.items), t) && TypeListsWellFormed(old(w.Settings()))
    ensures w.storedSettings == (if ok then DeleteTypeFrom(old(w.Settings()), t) else old(w.storedSettings))
  {
    var settings := w.Settings();
    if TypeInUse(w.items, t) || !TypeListsWellFormed(settings) {
      return false;
    }
    TypeEditsKeepLayout(settings, t);
    SaveSettings(w, DeleteTypeFrom(settings, t));
    ok := true;
  }

  /** A type just added is refused a second time, in any letter case. */
  lemma {:induction false} AddTypeOnce(settings: map<string, Value>, newType: string, again: string)
    requires AddTypeTo(settings, newType).Some?
    requires SameIgnoringCase(Trim(again), Trim(newType))
    ensures AddTypeTo(AddTypeTo(settings, newType).value, again).None?
  {
    var s := AddTypeTo(settings, newType).value;
    var types := s["itemTypes"].elems;
    assert types[|types| - 1] == Trim(newType);
    assert SameIgnoringCase(types[|types| - 1], Trim(again));
  }
}
