/** Settings values and the pure parts of js/modules/settings.js: the defaults, the merge
    that getSettings performs, the key filling of initializeSettings and the item-type
    edits of addType and deleteType. */
module Config {
  import opened Common

  /** A JSON value as stored in settings. */
  datatype Value =
    | Null
    | Bool(b: bool)
    | Num(n: int)
    | Str(s: string)
    | StrList(elems: seq<string>)
    | Obj(fields: map<string, Value>)

  /** JavaScript truthiness; arrays and objects are always truthy. */
  predicate Truthy(v: Value)
  {
    match v
    case Null => false
    case Bool(b) => b
    case Num(n) => n != 0
    case Str(s) => s != ""
    case _ => true
  }

  const Version: string := "1.1.0"

  /** The ALERT_TYPES names. Their string values are defined in a constants file that is not
      part of this model; each stands here for itself, and all nine are distinct. */
  const LowStock: string := "LOW_STOCK"
  const ValidityExpired: string := "VALIDITY_EXPIRED"
  const PendingCount: string := "PENDING_COUNT"
  const MaintenanceNeeded: string := "MAINTENANCE_NEEDED"
  const PriceVariation: string := "PRICE_VARIATION"
  const Predictive: string := "PREDICTIVE"
  const ValidityWarning: string := "VALIDITY_WARNING"
  const PriceCheckReminder: string := "PRICE_CHECK_REMINDER"
  const BackupReminder: string := "BACKUP_REMINDER"

  /** The alerts whose default behaviour is 'action'; the others are 'info'. */
  const ActionAlerts: set<string> := {LowStock, ValidityExpired, PendingCount}
  const InfoAlerts: set<string> :=
    {MaintenanceNeeded, PriceVariation, Predictive, ValidityWarning, PriceCheckReminder, BackupReminder}

  /** The default notificationBehaviors object: every alert type, 'action' for the three
      that need a response and 'info' for the other six. */
  function DefaultBehaviors(): (b: map<string, Value>)
    ensures b.Keys == ActionAlerts + InfoAlerts && |b.Keys| == 9
    ensures forall a :: a in ActionAlerts ==> b[a] == Str("action")
    ensures forall a :: a in InfoAlerts ==> b[a] == Str("info")
  {
    AlertsDistinct();
    map a | a in ActionAlerts + InfoAlerts :: if a in ActionAlerts then Str("action") else Str("info")
  }

  /** The nine alert names are distinct. */
  lemma AlertsDistinct()
    ensures |ActionAlerts| == 3 && |InfoAlerts| == 6 && ActionAlerts * InfoAlerts == {}
  {
    assert ValidityExpired[9] != ValidityWarning[9];
    assert PriceVariation[0] != BackupReminder[0];
    assert PriceCheckReminder[2] != PriceVariation[2] || |PriceCheckReminder| != |PriceVariation|;
  }

  /** The defaults of getSettings and initializeSettings (the two literals are the same). */
  function Defaults(): (d: map<string, Value>)
    ensures "notificationBehaviors" in d && d["notificationBehaviors"] == Obj(DefaultBehaviors())
  {
    map[
      "_version" := Str(Version),
      "warehouseName" := Str("Meu Almoxarifado"),
      "itemTypes" := StrList(["Eletrônico", "Ferramenta", "Material", "Equipamento", "Consumível", "Kit"]),
      "returnableTypes" := StrList(["Ferramenta", "Equipamento"]),
      "priceVariationPercentage" := Num(10),
      "predictiveAnalysisDays" := Num(90),
      "dashboardAnalysisDays" := Num(30),
      "alertForReturnables" := Bool(true),
      "paginationEnabled" := Bool(true),
      "itemsPerPage" := Num(10),
      "debitCalculation" := Str("depreciated"),
      "countFrequency" := Obj(map[
        "Eletrônico" := Num(180), "Ferramenta" := Num(90), "Material" := Num(365),
        "Equipamento" := Num(90), "Consumível" := Num(30)]),
      "priceCheckFrequency" := Num(30),
      "maintenanceFrequency" := Obj(map[
        "Eletrônico" := Num(365), "Ferramenta" := Num(180), "Equipamento" := Num(365)]),
      "aisles" := Str("A,B,C"),
      "shelvesPerAisle" := Num(5),
      "boxesPerShelf" := Num(5),
      "stockLevels" := Obj(map["ok" := Num(75), "medium" := Num(50), "low" := Num(25)]),
      "predictiveAlertLevels" := Obj(map["critical" := Num(7), "warning" := Num(30)]),
      "emailSettings" := Obj(map[
        "publicKey" := Str(""), "serviceId" := Str(""), "templateId" := Str(""), "recipientEmail" := Str("")]),
      "theme" := Str("light"),
      "timezone" := Str("America/Sao_Paulo"),
      "backupReminder" := Obj(map["lastBackupDate" := Null, "frequencyDays" := Num(7)]),
      "panelVisibility" := Obj(map[
        "item-management" := Bool(true), "kit-management" := Bool(true),
        "collaborator-management" := Bool(true), "debit-management" := Bool(true),
        "reporting-section" := Bool(true), "unified-dashboard" := Bool(true),
        "service-order-management" := Bool(true)]),
      "notificationBehaviors" := Obj(DefaultBehaviors())
    ]
  }

  /** getSettings: { ...defaults, ...stored }. Every stored key keeps its stored value and
      every other default key takes its default. */
  function GetSettings(stored: map<string, Value>): (r: map<string, Value>)
    ensures forall k :: k in r <==> k in stored || k in Defaults()
    ensures forall k :: k in stored ==> r[k] == stored[k]
    ensures forall k :: k in Defaults() && k !in stored ==> r[k] == Defaults()[k]
  {
    Defaults() + stored
  }

  // ---- accessors, as the modules read settings ----

  function StrListOf(settings: map<string, Value>, key: string): seq<string>
  {
    if key in settings && settings[key].StrList? then settings[key].elems else []
  }

  function StrOf(settings: map<string, Value>, key: string): string
  {
    if key in settings && settings[key].Str? then settings[key].s else ""
  }

  /** settings[key] || 0 for a numeric setting. */
  function NumOf(settings: map<string, Value>, key: string): int
  {
    if key in settings && settings[key].Num? then settings[key].n else 0
  }

  function ReturnableTypes(settings: map<string, Value>): seq<string>
  {
    StrListOf(settings, "returnableTypes")
  }

  function DebitPolicy(settings: map<string, Value>): string
  {
    StrOf(settings, "debitCalculation")
  }

  /** A numeric sub-key of an object setting (stockLevels.ok, stockLevels.medium). */
  function SubNum(settings: map<string, Value>, key: string, sub: string): Option<int>
  {
    if key in settings && settings[key].Obj? && sub in settings[key].fields && settings[key].fields[sub].Num?
    then Some(settings[key].fields[sub].n) else None
  }

  /** The three settings whose change makes saveSettings relocate items. */
  predicate LayoutChanged(before: map<string, Value>, after: map<string, Value>)
  {
    exists key :: key in {"aisles", "shelvesPerAisle", "boxesPerShelf"} &&
      ((key in before) != (key in after) || (key in before && key in after && before[key] != after[key]))
  }

  // ---- initializeSettings ----

  /** An object default is filled into the stored value: a stored object gains the missing
      sub-keys, a falsy value is replaced, any other value is left as it is. */
  function FillObject(v: Value, d: map<string, Value>): Value
  {
    if v.Obj? then Obj(d + v.fields)
    else if !Truthy(v) && |d| > 0 then Obj(d)
    else v
  }

  /** The value of default key `key` (defaults `d`) after the fill loop visits it. */
  function FillEntry(stored: map<string, Value>, d: map<string, Value>, key: string): Value
    requires key in d
  {
    if key !in stored then d[key]
    else if d[key].Obj? then FillObject(stored[key], d[key].fields)
    else stored[key]
  }

  /** The stored settings after the fill loop has visited the keys in done. */
  function Filled(stored: map<string, Value>, d: map<string, Value>, done: set<string>): map<string, Value>
    requires done <= d.Keys
  {
    map k | k in stored.Keys + done :: if k in done then FillEntry(stored, d, k) else stored[k]
  }

  /** The settings after initializeSettings' loop over every default key. */
  function FillDefaults(stored: map<string, Value>): map<string, Value>
  {
    Filled(stored, Defaults(), Defaults().Keys)
  }

  /** Does visiting the key mark the settings for saving? */
  predicate EntryNeedsUpdate(stored: map<string, Value>, d: map<string, Value>, key: string)
    requires key in d
  {
    key !in stored ||
    (d[key].Obj? && exists sub :: sub in d[key].fields && !(stored[key].Obj? && sub in stored[key].fields))
  }

  predicate VersionStale(stored: map<string, Value>)
  {
    !("_version" in stored && stored["_version"] == Str(Version))
  }

  predicate NeedsUpdateWith(stored: map<string, Value>, d: map<string, Value>)
  {
    VersionStale(stored) || exists key :: key in d && EntryNeedsUpdate(stored, d, key)
  }

  /** initializeSettings saves when the version is stale or some default key or sub-key is missing. */
  predicate NeedsUpdate(stored: map<string, Value>)
  {
    NeedsUpdateWith(stored, Defaults())
  }

  /** After the fill every default key is present, every object default's sub-keys are
      present when the stored value is an object or falsy, and stored values under keys
      whose default is not an object are untouched. Filling twice is filling once. */
  lemma FillProperties(stored: map<string, Value>, d: map<string, Value>)
    ensures var f := Filled(stored, d, d.Keys);
      (forall k :: k in f <==> k in d || k in stored) &&
      (forall k :: k in stored && (k !in d || !d[k].Obj?) ==> f[k] == stored[k]) &&
      (forall k, sub ::
         k in d && d[k].Obj? && sub in d[k].fields && (k !in stored || stored[k].Obj? || !Truthy(stored[k]))
         ==> f[k].Obj? && sub in f[k].fields) &&
      Filled(f, d, d.Keys) == f
  {
    FillIdempotent(stored, d);
  }

  lemma FillIdempotent(stored: map<string, Value>, d: map<string, Value>)
    ensures var f := Filled(stored, d, d.Keys); Filled(f, d, d.Keys) == f
  {
    var f := Filled(stored, d, d.Keys);
    var g := Filled(f, d, d.Keys);
    forall k | k in f ensures k in g && g[k] == f[k] {
      if k in d {
        assert f[k] == FillEntry(stored, d, k);
        if k in stored && d[k].Obj? {
          FillObjectIdempotent(stored[k], d[k].fields);
        } else if d[k].Obj? {
          FillObjectIdempotent(Obj(map[]), d[k].fields);
        }
      }
    }
    assert g.Keys == f.Keys;
  }

  lemma FillObjectIdempotent(v: Value, e: map<string, Value>)
    ensures FillObject(FillObject(v, e), e) == FillObject(v, e)
    ensures FillObject(Obj(e), e) == Obj(e)
  {
    assert e + e == e;
    if v.Obj? {
      assert e + (e + v.fields) == e + v.fields;
    }
  }

  /** Once every stored value under an object default is an object or falsy, the filled
      settings stamped with the version need no further update. */
  lemma FillSettles(stored: map<string, Value>, d: map<string, Value>)
    requires forall k :: k in stored && k in d && d[k].Obj? ==> stored[k].Obj? || !Truthy(stored[k])
    requires "_version" in d ==> !d["_version"].Obj?
    ensures !NeedsUpdateWith(Filled(stored, d, d.Keys)["_version" := Str(Version)], d)
  {
    var f := Filled(stored, d, d.Keys);
    var s := f["_version" := Str(Version)];
    FillProperties(stored, d);
    forall key | key in d ensures !EntryNeedsUpdate(s, d, key) {
      if d[key].Obj? {
        assert s[key] == f[key];
      }
    }
  }

  /** The same for the actual defaults: a second initialization saves nothing. */
  lemma InitializationSettles(stored: map<string, Value>)
    requires forall k :: k in stored && k in Defaults() && Defaults()[k].Obj? ==> stored[k].Obj? || !Truthy(stored[k])
    ensures !NeedsUpdate(FillDefaults(stored)["_version" := Str(Version)])
  {
    FillSettles(stored, Defaults());
  }

  /** A default key absent from storage is supplied by getSettings, makes initializeSettings
      save, and is filled with its default (a new install gains notificationBehaviors, and so
      do settings stored before that key existed). */
  lemma MissingDefaultFilled(stored: map<string, Value>, key: string)
    requires key in Defaults() && key !in stored
    ensures GetSettings(stored)[key] == Defaults()[key]
    ensures NeedsUpdate(stored)
    ensures key in FillDefaults(stored) && FillDefaults(stored)[key] == Defaults()[key]
  {
    assert EntryNeedsUpdate(stored, Defaults(), key);
  }

  // ---- addType / deleteType on the merged settings ----

  function TypeIndexIgnoringCase(types: seq<string>, t: string): (r: Option<nat>)
    ensures r.Some? ==> r.value < |types| && SameIgnoringCase(types[r.value], t)
    ensures r.None? ==> forall k :: 0 <= k < |types| ==> !SameIgnoringCase(types[k], t)
  {
    FirstIndex(types, (x: string) => SameIgnoringCase(x, t))
  }

  /** frequency[t] defaults to n when absent or falsy. */
  function DefaultFrequency(freq: map<string, Value>, t: string, n: int): map<string, Value>
  {
    if t in freq && Truthy(freq[t]) then freq else freq[t := Num(n)]
  }

  predicate TypeListsWellFormed(settings: map<string, Value>)
  {
    "itemTypes" in settings && settings["itemTypes"].StrList? &&
    "returnableTypes" in settings && settings["returnableTypes"].StrList? &&
    "countFrequency" in settings && settings["countFrequency"].Obj? &&
    "maintenanceFrequency" in settings && settings["maintenanceFrequency"].Obj?
  }

  /** addType's edit: t is appended to itemTypes and gets count frequency 180 and
      maintenance frequency 365 unless it already has truthy ones. */
  function WithType(settings: map<string, Value>, t: string): (r: map<string, Value>)
    requires TypeListsWellFormed(settings)
    ensures TypeListsWellFormed(r) && r.Keys == settings.Keys
    ensures r["itemTypes"].elems == settings["itemTypes"].elems + [t]
    ensures r["returnableTypes"] == settings["returnableTypes"]
    ensures forall k :: k in settings && k !in {"itemTypes", "countFrequency", "maintenanceFrequency"} ==>
              k in r && r[k] == settings[k]
    ensures FrequencyAdded(settings["countFrequency"].fields, r["countFrequency"].fields, t, 180)
    ensures FrequencyAdded(settings["maintenanceFrequency"].fields, r["maintenanceFrequency"].fields, t, 365)
  {
    settings
      ["itemTypes" := StrList(settings["itemTypes"].elems + [t])]
      ["countFrequency" := Obj(DefaultFrequency(settings["countFrequency"].fields, t, 180))]
      ["maintenanceFrequency" := Obj(DefaultFrequency(settings["maintenanceFrequency"].fields, t, 365))]
  }

  /** after is before with t given frequency n when it had no truthy frequency. */
  predicate FrequencyAdded(before: map<string, Value>, after: map<string, Value>, t: string, n: int)
  {
    t in after && Truthy(after[t]) &&
    (t in before && Truthy(before[t]) ==> after == before) &&
    (t !in before || !Truthy(before[t]) ==> after == before[t := Num(n)])
  }

  /** addType: the trimmed name, unless it is empty or already present ignoring case, is
      added with WithType. None is a refusal. */
  function AddTypeTo(settings: map<string, Value>, newType: string): (r: Option<map<string, Value>>)
    ensures r.Some? <==> TypeListsWellFormed(settings) && Trim(newType) != [] &&
                         TypeIndexIgnoringCase(settings["itemTypes"].elems, Trim(newType)).None?
    ensures r.Some? ==> r.value == WithType(settings, Trim(newType))
  {
    var t := Trim(newType);
    if t == [] || !TypeListsWellFormed(settings) then None
    else if TypeIndexIgnoringCase(settings["itemTypes"].elems, t).Some? then None
    else Some(WithType(settings, t))
  }

  function RemoveString(s: seq<string>, t: string): (r: seq<string>)
    ensures forall k :: 0 <= k < |r| ==> r[k] != t && r[k] in s
    ensures forall k :: 0 <= k < |s| && s[k] != t ==> s[k] in r
  {
    Filter(s, (x: string) => x != t)
  }

  /** deleteType's edit: the type leaves both type lists and both frequency maps. */
  function DeleteTypeFrom(settings: map<string, Value>, t: string): (r: map<string, Value>)
    requires TypeListsWellFormed(settings)
    ensures TypeListsWellFormed(r) && r.Keys == settings.Keys
    ensures t !in r["itemTypes"].elems && t !in r["returnableTypes"].elems
    ensures t !in r["countFrequency"].fields && t !in r["maintenanceFrequency"].fields
    ensures forall x :: x in settings["itemTypes"].elems && x != t ==> x in r["itemTypes"].elems
    ensures forall x :: x in settings["returnableTypes"].elems && x != t ==> x in r["returnableTypes"].elems
    ensures forall k :: k in settings && k !in {"itemTypes", "returnableTypes", "countFrequency", "maintenanceFrequency"} ==>
              k in r && r[k] == settings[k]
  {
    settings
      ["itemTypes" := StrList(RemoveString(settings["itemTypes"].elems, t))]
      ["returnableTypes" := StrList(RemoveString(settings["returnableTypes"].elems, t))]
      ["countFrequency" := Obj(settings["countFrequency"].fields - {t})]
      ["maintenanceFrequency" := Obj(settings["maintenanceFrequency"].fields - {t})]
  }

  /** addType and deleteType save the merged settings, so every default key the stored
      settings lacked is saved with its default value, notificationBehaviors among them. */
  lemma TypeEditsSaveDefaults(stored: map<string, Value>, t: string, key: string)
    requires TypeListsWellFormed(GetSettings(stored))
    requires key in Defaults() && key !in stored
    requires key !in {"itemTypes", "returnableTypes", "countFrequency", "maintenanceFrequency"}
    ensures WithType(GetSettings(stored), t)[key] == Defaults()[key]
    ensures DeleteTypeFrom(GetSettings(stored), t)[key] == Defaults()[key]
  {
  }
}
