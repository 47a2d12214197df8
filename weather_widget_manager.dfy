/**
 * The Android widget manager: the set of active widget ids, the widget
 * data cache (kept in memory, loaded once from the preferences and saved
 * back after each update), the loading and error states, and the
 * per-widget configurations. The preferences are fields of the manager;
 * a JSON text is modelled by what parsing it yields.
 */
module WeatherWidgetManager {
  import opened Base
  import opened Strings

  const DefaultUpdateFrequency: int := 30

  datatype LoadingState = NoState | Loading | Loaded | Error

  /**
   * WeatherWidgetData: the display strings, the update time and the
   * loading state (the hourly, daily and forecast lists are not modelled).
   */
  datatype WidgetData = WidgetData(
    temperature: string, iconPath: string, description: string, locationName: string, date: string,
    lastUpdate: int, loadingState: LoadingState, errorMessage: string)

  /** WeatherWidgetData() with every field at its default; lastUpdate is the clock, given as now. */
  function DefaultData(now: int): (d: WidgetData)
    ensures d.loadingState == NoState && d.errorMessage == [] && d.lastUpdate == now
  {
    WidgetData("", "", "", "", "", now, NoState, "")
  }

  /** String.isBlank: empty or only whitespace. */
  predicate IsBlank(s: string)
  {
    forall i :: 0 <= i < |s| ==> IsSpace(s[i])
  }

  // ---------------------------------------------------------------------
  // The persisted data cache
  // ---------------------------------------------------------------------

  /** One key of the persisted cache: the key as toInt reads it and the entry as decoding reads it (None: it throws). */
  datatype CacheEntry = CacheEntry(id: Option<int>, data: Option<WidgetData>)

  /** The widget_data_cache preference: null or empty, a text JSONObject rejects, or its keys in iteration order. */
  datatype StoredCache = NoCache | UnparsableCache | CacheEntries(entries: seq<CacheEntry>)

  /** The loop of loadWidgetDataCache: entries are put one by one until one throws. */
  function LoadEntries(entries: seq<CacheEntry>, cache: map<int, WidgetData>): (r: map<int, WidgetData>)
    ensures cache.Keys <= r.Keys
    decreases |entries|
  {
    if entries == [] || entries[0].id.None? || entries[0].data.None? then cache
    else LoadEntries(entries[1..], cache[entries[0].id.value := entries[0].data.value])
  }

  /** The ids of the entries. */
  function EntryIds(entries: seq<CacheEntry>): (r: set<int>)
  {
    set i | 0 <= i < |entries| && entries[i].id.Some? :: entries[i].id.value
  }

  /** The entries saveWidgetDataCache writes for a cache. */
  predicate SavedFrom(entries: seq<CacheEntry>, m: map<int, WidgetData>)
  {
    forall i :: 0 <= i < |entries| ==>
      entries[i].id.Some? && entries[i].id.value in m && entries[i].data == Some(m[entries[i].id.value])
  }

  /** Loading saved entries on top of a cache: their ids take the saved data, the other ids keep theirs. */
  lemma {:induction false} LoadSavedEntries(entries: seq<CacheEntry>, m: map<int, WidgetData>, cache: map<int, WidgetData>)
    requires SavedFrom(entries, m)
    ensures var r := LoadEntries(entries, cache);
      (forall k :: k in r <==> k in cache || k in EntryIds(entries)) &&
      (forall k :: k in r ==> r[k] == if k in EntryIds(entries) then m[k] else cache[k])
    decreases |entries|
  {
    if entries != [] {
      var k := entries[0].id.value;
      var rest := entries[1..];
      assert SavedFrom(rest, m) by {
        forall i | 0 <= i < |rest| ensures rest[i] == entries[i + 1] { }
      }
      LoadSavedEntries(rest, m, cache[k := m[k]]);
      forall x ensures x in EntryIds(entries) <==> x == k || x in EntryIds(rest) {
        if x in EntryIds(entries) {
          var i :| 0 <= i < |entries| && entries[i].id.Some? && entries[i].id.value == x;
          if i > 0 { assert rest[i - 1] == entries[i]; }
        }
        if x in EntryIds(rest) {
          var i :| 0 <= i < |rest| && rest[i].id.Some? && rest[i].id.value == x;
          assert entries[i + 1] == rest[i];
        }
      }
    } else {
      assert EntryIds(entries) == {};
    }
  }

  /** The cache saveWidgetDataCache writes is the one loadWidgetDataCache reads back into an empty cache. */
  lemma SavedCacheLoadsBack(entries: seq<CacheEntry>, m: map<int, WidgetData>)
    requires SavedFrom(entries, m) && forall k :: k in m ==> k in EntryIds(entries)
    ensures LoadEntries(entries, map[]) == m
  {
    LoadSavedEntries(entries, m, map[]);
    var r := LoadEntries(entries, map[]);
    forall k ensures k in r <==> k in m {
      if k in EntryIds(entries) {
        var i :| 0 <= i < |entries| && entries[i].id.Some? && entries[i].id.value == k;
      }
    }
    assert r.Keys == m.Keys;
    forall k | k in r ensures r[k] == m[k] {
      assert k in EntryIds(entries);
    }
    assert r == m;
  }

  /**
   * setWidgetLoading and setWidgetError write the in-memory cache without
   * loading it first: the first load then puts the persisted entry of the
   * same id over that state.
   */
  lemma LoadReplacesUnloadedState(entries: seq<CacheEntry>, m: map<int, WidgetData>, cache: map<int, WidgetData>, widgetId: int, state: WidgetData)
    requires SavedFrom(entries, m) && widgetId in EntryIds(entries)
    ensures LoadEntries(entries, cache[widgetId := state])[widgetId] == m[widgetId]
  {
    LoadSavedEntries(entries, m, cache[widgetId := state]);
  }

  // ---------------------------------------------------------------------
  // The persisted active ids
  // ---------------------------------------------------------------------

  /** The active_widget_ids preference: null or empty, a text JSONArray rejects, or its elements as getInt reads them. */
  datatype StoredIds = NoIds | UnparsableIds | IdArray(elements: seq<Option<int>>)

  /** The elements as a set, or None when getInt throws on one of them. */
  function IdsOfArray(elements: seq<Option<int>>): (r: Option<set<int>>)
    ensures r.Some? <==> forall i :: 0 <= i < |elements| ==> elements[i].Some?
    ensures r.Some? ==> forall x :: x in r.value <==> Some(x) in elements
  {
    if elements == [] then Some({})
    else
      var rest := IdsOfArray(elements[1..]);
      if elements[0].None? || rest.None? then None
      else Some({elements[0].value} + rest.value)
  }

  /** getActiveWidgetIdsFromPrefs: the stored ids, or the empty set when there are none or they do not parse. */
  function ActiveIdsOf(stored: StoredIds): (r: set<int>)
    ensures !stored.IdArray? ==> r == {}
  {
    if stored.IdArray? && IdsOfArray(stored.elements).Some? then IdsOfArray(stored.elements).value else {}
  }

  /** The array saveActiveWidgetIdsToPrefs writes for a list of ids. */
  function IdArrayOf(xs: seq<int>): (r: StoredIds)
    ensures r.IdArray? && |r.elements| == |xs|
    ensures forall i :: 0 <= i < |xs| ==> r.elements[i] == Some(xs[i])
  {
    IdArray(seq(|xs|, i requires 0 <= i < |xs| => Some(xs[i])))
  }

  /** Saved ids read back as the same set. */
  lemma SavedIdsReadBack(xs: seq<int>, ids: set<int>)
    requires forall x :: x in xs <==> x in ids
    ensures ActiveIdsOf(IdArrayOf(xs)) == ids
  {
    var e := IdArrayOf(xs).elements;
    forall x ensures Some(x) in e <==> x in xs {
      if Some(x) in e {
        var i :| 0 <= i < |e| && e[i] == Some(x);
        assert xs[i] == x;
      }
      if x in xs {
        var i :| 0 <= i < |xs| && xs[i] == x;
        assert e[i] == Some(x);
      }
    }
    var r := IdsOfArray(e);
    assert r.Some?;
    forall x ensures x in r.value <==> x in ids {
      assert x in r.value <==> Some(x) in e;
    }
    assert r.value == ids;
  }

  // ---------------------------------------------------------------------
  // The persisted configurations
  // ---------------------------------------------------------------------

  /** WidgetConfig of the Android side. */
  datatype WidgetConfig = WidgetConfig(locationName: string, latitude: real, longitude: real, model: string)

  /** A stored configuration object: each field as optString/optDouble finds it, None when absent. */
  datatype ConfigFields = ConfigFields(locationName: Option<string>, latitude: Option<real>, longitude: Option<real>, model: Option<string>)

  /** One key of widget_configs: the key as toInt reads it, and its value as getJSONObject reads it. */
  datatype ConfigEntry = ConfigEntry(id: Option<int>, fields: Option<ConfigFields>)

  datatype StoredConfigs = NoConfigs | UnparsableConfigs | ConfigEntries(entries: seq<ConfigEntry>)

  /** A configuration from its stored fields: the missing ones default to "current", 0.0, 0.0 and "default". */
  function ConfigOfFields(f: ConfigFields): (c: WidgetConfig)
    ensures f.locationName.None? ==> c.locationName == "current"
    ensures f.latitude.None? ==> c.latitude == 0.0
    ensures f.longitude.None? ==> c.longitude == 0.0
    ensures f.model.None? ==> c.model == "default"
    ensures f == ConfigFields(Some(c.locationName), Some(c.latitude), Some(c.longitude), Some(c.model)) <==>
      (f.locationName.Some? && f.latitude.Some? && f.longitude.Some? && f.model.Some?)
  {
    WidgetConfig(
      if f.locationName.Some? then f.locationName.value else "current",
      if f.latitude.Some? then f.latitude.value else 0.0,
      if f.longitude.Some? then f.longitude.value else 0.0,
      if f.model.Some? then f.model.value else "default")
  }

  /** The fields saveAllWidgetConfigs writes for a configuration. */
  function FieldsOf(c: WidgetConfig): (f: ConfigFields)
    ensures ConfigOfFields(f) == c
  {
    ConfigFields(Some(c.locationName), Some(c.latitude), Some(c.longitude), Some(c.model))
  }

  /** The loop of getAllWidgetConfigs from a partial map; None once an entry throws. */
  function ConfigsFrom(entries: seq<ConfigEntry>, acc: map<int, WidgetConfig>): (r: Option<map<int, WidgetConfig>>)
    ensures r.Some? <==> forall i :: 0 <= i < |entries| ==> entries[i].id.Some? && entries[i].fields.Some?
    decreases |entries|
  {
    if entries == [] then Some(acc)
    else if entries[0].id.None? || entries[0].fields.None? then None
    else ConfigsFrom(entries[1..], acc[entries[0].id.value := ConfigOfFields(entries[0].fields.value)])
  }

  /** getAllWidgetConfigs: the parsed map, or the empty map when there is none or any part fails to parse. */
  function AllConfigsOf(stored: StoredConfigs): (r: map<int, WidgetConfig>)
    ensures !stored.ConfigEntries? ==> r == map[]
  {
    if stored.ConfigEntries? && ConfigsFrom(stored.entries, map[]).Some? then ConfigsFrom(stored.entries, map[]).value else map[]
  }

  /** The entries saveAllWidgetConfigs writes for a map, keys listed in xs. */
  function ConfigEntriesOf(xs: seq<int>, m: map<int, WidgetConfig>): (r: seq<ConfigEntry>)
    requires forall i :: 0 <= i < |xs| ==> xs[i] in m
    ensures |r| == |xs| && forall i :: 0 <= i < |xs| ==> r[i] == ConfigEntry(Some(xs[i]), Some(FieldsOf(m[xs[i]])))
  {
    seq(|xs|, i requires 0 <= i < |xs| => ConfigEntry(Some(xs[i]), Some(FieldsOf(m[xs[i]]))))
  }

  /** Reading saved entries on top of a map: the saved ids take the saved configurations, the others keep theirs. */
  lemma {:induction false} ConfigsFromSaved(xs: seq<int>, m: map<int, WidgetConfig>, acc: map<int, WidgetConfig>)
    requires forall i :: 0 <= i < |xs| ==> xs[i] in m
    ensures var r := ConfigsFrom(ConfigEntriesOf(xs, m), acc);
      r.Some? && (forall k :: k in r.value <==> k in acc || k in xs) &&
      (forall k :: k in r.value ==> r.value[k] == if k in xs then m[k] else acc[k])
    decreases |xs|
  {
    var e := ConfigEntriesOf(xs, m);
    if xs != [] {
      var k := xs[0];
      assert e[1..] == ConfigEntriesOf(xs[1..], m);
      assert ConfigsFrom(e, acc) == ConfigsFrom(e[1..], acc[k := m[k]]);
      ConfigsFromSaved(xs[1..], m, acc[k := m[k]]);
      assert forall x :: x in xs <==> x == k || x in xs[1..];
    } else {
      assert e == [];
    }
  }

  /** Saved configurations read back as the same map. */
  lemma SavedConfigsReadBack(xs: seq<int>, m: map<int, WidgetConfig>)
    requires (forall i :: 0 <= i < |xs| ==> xs[i] in m) && forall k :: k in m ==> k in xs
    ensures AllConfigsOf(ConfigEntries(ConfigEntriesOf(xs, m))) == m
  {
    ConfigsFromSaved(xs, m, map[]);
    var r := ConfigsFrom(ConfigEntriesOf(xs, m), map[]).value;
    forall k ensures k in r <==> k in m {
      if k in xs {
        var i :| 0 <= i < |xs| && xs[i] == k;
      }
    }
    assert r.Keys == m.Keys;
    forall k | k in r ensures r[k] == m[k] {
      assert k in xs;
    }
    assert r == m;
  }

  // ---------------------------------------------------------------------
  // The manager
  // ---------------------------------------------------------------------

  class WidgetManager {
    /** widgetDataCache and cacheLoaded. */
    var widgetDataCache: map<int, WidgetData>
    var cacheLoaded: bool
    /** The preferences widget_data_cache, active_widget_ids, widget_configs and widget_update_frequency. */
    var storedCache: StoredCache
    var storedIds: StoredIds
    var storedConfigs: StoredConfigs
    var storedUpdateFrequency: Option<int>

    constructor(storedCache: StoredCache, storedIds: StoredIds, storedConfigs: StoredConfigs, frequency: Option<int>)
      ensures widgetDataCache == map[] && !cacheLoaded
      ensures this.storedCache == storedCache && this.storedIds == storedIds
      ensures this.storedConfigs == storedConfigs && storedUpdateFrequency == frequency
    {
      widgetDataCache := map[];
      cacheLoaded := false;
      this.storedCache := storedCache;
      this.storedIds := storedIds;
      this.storedConfigs := storedConfigs;
      storedUpdateFrequency := frequency;
    }

    /** The cache once loaded: unchanged if loaded already, else with the persisted entries put over it. */
    function LoadedCache(): (r: map<int, WidgetData>)
      reads this
      ensures widgetDataCache.Keys <= r.Keys
      ensures cacheLoaded ==> r == widgetDataCache
    {
      if cacheLoaded || !storedCache.CacheEntries? then widgetDataCache
      else LoadEntries(storedCache.entries, widgetDataCache)
    }

    /** loadWidgetDataCache: the persisted cache is read at most once. */
    method LoadWidgetDataCache()
      modifies this`widgetDataCache, this`cacheLoaded
      ensures cacheLoaded && widgetDataCache == old(LoadedCache())
    {
      if cacheLoaded {
        return;
      }
      if !storedCache.CacheEntries? {
        cacheLoaded := true;
        return;
      }
      var entries := storedCache.entries;
      var i := 0;
      while i < |entries| && entries[i].id.Some? && entries[i].data.Some?
        invariant 0 <= i <= |entries|
        invariant LoadEntries(entries[i..], widgetDataCache) == old(LoadedCache())
      {
        assert entries[i..][1..] == entries[i + 1..];
        widgetDataCache := widgetDataCache[entries[i].id.value := entries[i].data.value];
        i := i + 1;
      }
      cacheLoaded := true;
    }

    /** saveWidgetDataCache: every cached widget written under its id. */
    method SaveWidgetDataCache()
      modifies this`storedCache
      ensures storedCache.CacheEntries? && SavedFrom(storedCache.entries, widgetDataCache)
      ensures forall k :: k in widgetDataCache ==> k in EntryIds(storedCache.entries)
    {
      var ids := ListOf(widgetDataCache.Keys);
      var entries: seq<CacheEntry> := [];
      var i := 0;
      while i < |ids|
        invariant 0 <= i <= |ids| && |entries| == i
        invariant forall j :: 0 <= j < i ==> entries[j] == CacheEntry(Some(ids[j]), Some(widgetDataCache[ids[j]]))
      {
        entries := entries + [CacheEntry(Some(ids[i]), Some(widgetDataCache[ids[i]]))];
        i := i + 1;
      }
      forall k | k in widgetDataCache ensures k in EntryIds(entries) {
        var j :| 0 <= j < |ids| && ids[j] == k;
        assert entries[j].id.value == k;
      }
      storedCache := CacheEntries(entries);
    }

    /** The active ids as the preferences hold them. */
    function ActiveIds(): (r: set<int>)
      reads this
    {
      ActiveIdsOf(storedIds)
    }

    /** getActiveWidgetIdsFromPrefs, with its loop over the array. */
    method GetActiveWidgetIdsFromPrefs() returns (ids: set<int>)
      ensures ids == ActiveIds()
    {
      if !storedIds.IdArray? {
        return {};
      }
      var elements := storedIds.elements;
      ids := {};
      var i := 0;
      while i < |elements|
        invariant 0 <= i <= |elements|
        invariant forall j :: 0 <= j < i ==> elements[j].Some?
        invariant forall x :: x in ids <==> Some(x) in elements[..i]
      {
        if elements[i].None? {
          return {};
        }
        assert elements[..i + 1] == elements[..i] + [elements[i]];
        ids := ids + {elements[i].value};
        i := i + 1;
      }
      assert elements[..i] == elements;
      var r := IdsOfArray(elements);
      forall x ensures x in r.value <==> x in ids {
        assert x in r.value <==> Some(x) in elements;
      }
    }

    method SaveActiveWidgetIdsToPrefs(ids: set<int>)
      modifies this`storedIds
      ensures ActiveIds() == ids
    {
      var xs := ListOf(ids);
      storedIds := IdArrayOf(xs);
      SavedIdsReadBack(xs, ids);
    }

    /** addActiveWidget: the id joins the set; the preference is written only when it was not there. */
    method AddActiveWidget(widgetId: int)
      modifies this`storedIds
      ensures ActiveIds() == old(ActiveIds()) + {widgetId}
      ensures widgetId in old(ActiveIds()) ==> storedIds == old(storedIds)
    {
      var activeIds := GetActiveWidgetIdsFromPrefs();
      if widgetId !in activeIds {
        SaveActiveWidgetIdsToPrefs(activeIds + {widgetId});
      }
    }

    /** removeActiveWidget: the id leaves the set; the preference is written only when it was there. */
    method RemoveActiveWidget(widgetId: int)
      modifies this`storedIds
      ensures ActiveIds() == old(ActiveIds()) - {widgetId}
      ensures widgetId !in old(ActiveIds()) ==> storedIds == old(storedIds)
    {
      var activeIds := GetActiveWidgetIdsFromPrefs();
      if widgetId in activeIds {
        SaveActiveWidgetIdsToPrefs(activeIds - {widgetId});
      }
    }

    /** isWidgetAddedToLauncher: membership in the active set. */
    function IsWidgetAddedToLauncher(widgetId: int): (r: bool)
      reads this
      ensures r <==> widgetId in ActiveIdsOf(storedIds)
    {
      widgetId in ActiveIds()
    }

    /** getAllActiveWidgetIds, and the ids requestAllWidgetsUpdate sends an update request for: each active id once. */
    method GetAllActiveWidgetIds() returns (r: seq<int>)
      ensures NoDuplicates(r) && forall x :: x in r <==> x in ActiveIds()
    {
      var ids := GetActiveWidgetIdsFromPrefs();
      r := ListOf(ids);
    }

    /** getUpdateFrequency: the stored frequency, 30 when unset. */
    function UpdateFrequency(): (r: int)
      reads this
      ensures storedUpdateFrequency.None? ==> r == DefaultUpdateFrequency
      ensures storedUpdateFrequency.Some? ==> r == storedUpdateFrequency.value
    {
      if storedUpdateFrequency.Some? then storedUpdateFrequency.value else DefaultUpdateFrequency
    }

    method SetUpdateFrequency(minutes: int)
      modifies this`storedUpdateFrequency
      ensures UpdateFrequency() == minutes
    {
      storedUpdateFrequency := Some(minutes);
    }

    /** setWidgetLoading: a LOADING entry in the in-memory cache (neither loaded nor saved first). */
    method SetWidgetLoading(widgetId: int, now: int)
      modifies this`widgetDataCache
      ensures widgetDataCache == old(widgetDataCache)[widgetId := DefaultData(now).(loadingState := Loading)]
    {
      widgetDataCache := widgetDataCache[widgetId := DefaultData(now).(loadingState := Loading)];
    }

    /** setWidgetError: an ERROR entry carrying the message. */
    method SetWidgetError(widgetId: int, errorMessage: string, now: int)
      modifies this`widgetDataCache
      ensures widgetDataCache == old(widgetDataCache)[widgetId := DefaultData(now).(loadingState := Error, errorMessage := errorMessage)]
    {
      widgetDataCache := widgetDataCache[widgetId := DefaultData(now).(loadingState := Error, errorMessage := errorMessage)];
    }

    /** handleParsedWidgetData: load the cache, put the data, save. */
    method HandleParsedWidgetData(widgetId: int, data: WidgetData)
      modifies this`widgetDataCache, this`cacheLoaded, this`storedCache
      ensures cacheLoaded && widgetDataCache == old(LoadedCache())[widgetId := data]
      ensures storedCache.CacheEntries? && SavedFrom(storedCache.entries, widgetDataCache)
      ensures forall k :: k in widgetDataCache ==> k in EntryIds(storedCache.entries)
    {
      LoadWidgetDataCache();
      widgetDataCache := widgetDataCache[widgetId := data];
      SaveWidgetDataCache();
    }

    /** updateWidgetData with an object: null drops the entry from memory only; data is stored and saved. */
    method UpdateWidgetData(widgetId: int, data: Option<WidgetData>)
      modifies this`widgetDataCache, this`cacheLoaded, this`storedCache
      ensures data.None? ==>
        (widgetDataCache == old(widgetDataCache) - {widgetId} && cacheLoaded == old(cacheLoaded) && storedCache == old(storedCache))
      ensures data.Some? ==> cacheLoaded && widgetDataCache == old(LoadedCache())[widgetId := data.value]
    {
      if data.None? {
        widgetDataCache := widgetDataCache - {widgetId};
        return;
      }
      HandleParsedWidgetData(widgetId, data.value);
    }

    /**
     * updateWidgetData with a JSON text, parse standing for the decoder:
     * null or blank gives the error "No data received", a text that does
     * not decode "Invalid data format", and decoded data is stored as LOADED.
     */
    method UpdateWidgetDataJson(widgetId: int, dataJson: Option<string>, parse: string -> Option<WidgetData>, now: int)
      modifies this`widgetDataCache, this`cacheLoaded, this`storedCache
      ensures dataJson.None? || IsBlank(dataJson.value) ==>
        widgetDataCache == old(widgetDataCache)[widgetId := DefaultData(now).(loadingState := Error, errorMessage := "No data received")]
      ensures dataJson.Some? && !IsBlank(dataJson.value) && parse(dataJson.value).None? ==>
        widgetDataCache == old(widgetDataCache)[widgetId := DefaultData(now).(loadingState := Error, errorMessage := "Invalid data format")]
      ensures dataJson.Some? && !IsBlank(dataJson.value) && parse(dataJson.value).Some? ==>
        cacheLoaded && widgetDataCache == old(LoadedCache())[widgetId := parse(dataJson.value).value.(loadingState := Loaded)]
    {
      if dataJson.None? || IsBlank(dataJson.value) {
        SetWidgetError(widgetId, "No data received", now);
        return;
      }
      var data := parse(dataJson.value);
      if data.None? {
        SetWidgetError(widgetId, "Invalid data format", now);
        return;
      }
      HandleParsedWidgetData(widgetId, data.value.(loadingState := Loaded));
    }

    /** getWidgetData: the cached entry after loading, None when there is none. */
    method GetWidgetData(widgetId: int) returns (r: Option<WidgetData>)
      modifies this`widgetDataCache, this`cacheLoaded
      ensures widgetDataCache == old(LoadedCache()) && cacheLoaded
      ensures r.Some? <==> widgetId in widgetDataCache
      ensures r.Some? ==> r.value == widgetDataCache[widgetId]
    {
      LoadWidgetDataCache();
      r := if widgetId in widgetDataCache then Some(widgetDataCache[widgetId]) else None;
    }

    /** clearWidgetData: load, drop the entry, save. */
    method ClearWidgetData(widgetId: int)
      modifies this`widgetDataCache, this`cacheLoaded, this`storedCache
      ensures cacheLoaded && widgetDataCache == old(LoadedCache()) - {widgetId}
      ensures storedCache.CacheEntries? && SavedFrom(storedCache.entries, widgetDataCache)
    {
      LoadWidgetDataCache();
      widgetDataCache := widgetDataCache - {widgetId};
      SaveWidgetDataCache();
    }

    /** getAllWidgetConfigs, with its loop over the keys. */
    method GetAllWidgetConfigs() returns (r: map<int, WidgetConfig>)
      ensures r == AllConfigsOf(storedConfigs)
    {
      if !storedConfigs.ConfigEntries? {
        return map[];
      }
      var entries := storedConfigs.entries;
      r := map[];
      var i := 0;
      while i < |entries|
        invariant 0 <= i <= |entries|
        invariant ConfigsFrom(entries[i..], r) == ConfigsFrom(entries, map[])
      {
        assert entries[i..][1..] == entries[i + 1..];
        if entries[i].id.None? || entries[i].fields.None? {
          return map[];
        }
        r := r[entries[i].id.value := ConfigOfFields(entries[i].fields.value)];
        i := i + 1;
      }
    }

    /** saveAllWidgetConfigs: the map as written reads back unchanged. */
    method SaveAllWidgetConfigs(configs: map<int, WidgetConfig>)
      modifies this`storedConfigs
      ensures AllConfigsOf(storedConfigs) == configs
    {
      var ids := ListOf(configs.Keys);
      storedConfigs := ConfigEntries(ConfigEntriesOf(ids, configs));
      SavedConfigsReadBack(ids, configs);
    }

    /** loadWidgetConfig: the widget's configuration, None when absent. */
    method LoadWidgetConfig(widgetId: int) returns (r: Option<WidgetConfig>)
      ensures r.Some? <==> widgetId in AllConfigsOf(storedConfigs)
      ensures r.Some? ==> r.value == AllConfigsOf(storedConfigs)[widgetId]
    {
      var all := GetAllWidgetConfigs();
      r := if widgetId in all then Some(all[widgetId]) else None;
    }

    /** deleteWidgetConfig: the id leaves the configurations and the data cache, both saved. */
    method DeleteWidgetConfig(widgetId: int)
      modifies this`storedConfigs, this`widgetDataCache, this`cacheLoaded, this`storedCache
      ensures AllConfigsOf(storedConfigs) == old(AllConfigsOf(storedConfigs)) - {widgetId}
      ensures cacheLoaded && widgetDataCache == old(LoadedCache()) - {widgetId}
      ensures storedCache.CacheEntries? && SavedFrom(storedCache.entries, widgetDataCache)
    {
      var configs := GetAllWidgetConfigs();
      SaveAllWidgetConfigs(configs - {widgetId});
      ClearWidgetData(widgetId);
    }

    /** onWidgetRemoved: the id leaves the active set, the configurations and the data cache. */
    method OnWidgetRemoved(widgetId: int)
      modifies this`storedIds, this`storedConfigs, this`widgetDataCache, this`cacheLoaded, this`storedCache
      ensures ActiveIds() == old(ActiveIds()) - {widgetId}
      ensures AllConfigsOf(storedConfigs) == old(AllConfigsOf(storedConfigs)) - {widgetId}
      ensures cacheLoaded && widgetDataCache == old(LoadedCache()) - {widgetId}
    {
      RemoveActiveWidget(widgetId);
      DeleteWidgetConfig(widgetId);
    }
  }
}
