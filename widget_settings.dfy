/**
 * The iOS widget settings: per-kind default configurations, per-instance
 * configurations, the widget data cache, the set of active widget ids and
 * the update frequency, each kept in the app group's user defaults. A
 * stored dictionary is modelled by what decoding it yields (None when the
 * key is missing or the data does not decode).
 */
module WidgetSettings {
  import opened Base

  /** WidgetConfig of the iOS side, without its free-form settings dictionary. */
  datatype WidgetConfig = WidgetConfig(
    locationName: string, latitude: real, longitude: real,
    model: Option<string>, provider: Option<string>, widgetKind: Option<string>, iconSet: Option<string>)

  /** A configuration as a JSON object: each key present or absent. */
  datatype ConfigJson = ConfigJson(
    locationName: Option<string>, latitude: Option<real>, longitude: Option<real>,
    model: Option<string>, provider: Option<string>, widgetKind: Option<string>, iconSet: Option<string>)

  /** encode(to:): the three location fields always, the optional ones when present. */
  function Encode(c: WidgetConfig): (j: ConfigJson)
    ensures j.locationName.Some? && j.latitude.Some? && j.longitude.Some?
  {
    ConfigJson(Some(c.locationName), Some(c.latitude), Some(c.longitude), c.model, c.provider, c.widgetKind, c.iconSet)
  }

  /** init(from:): a missing name is "current", missing coordinates are 0.0, the rest stay absent. */
  function Decode(j: ConfigJson): (c: WidgetConfig)
    ensures j.locationName.None? ==> c.locationName == "current"
    ensures j.latitude.None? ==> c.latitude == 0.0
    ensures j.longitude.None? ==> c.longitude == 0.0
  {
    WidgetConfig(
      if j.locationName.Some? then j.locationName.value else "current",
      if j.latitude.Some? then j.latitude.value else 0.0,
      if j.longitude.Some? then j.longitude.value else 0.0,
      j.model, j.provider, j.widgetKind, j.iconSet)
  }

  /** createDefaultConfig: "current" at 0.0, 0.0 with nothing else set. */
  const DefaultConfig: WidgetConfig := WidgetConfig("current", 0.0, 0.0, None, None, None, None)

  /** Decoding an encoded configuration gives it back; an empty object decodes to the default configuration. */
  lemma EncodeDecode(c: WidgetConfig)
    ensures Decode(Encode(c)) == c
    ensures Decode(ConfigJson(None, None, None, None, None, None, None)) == DefaultConfig
  {
  }

  /** The configurations a stored dictionary decodes to. */
  function DecodeAll(stored: Option<map<string, ConfigJson>>): (r: map<string, WidgetConfig>)
    ensures stored.None? ==> r == map[]
    ensures stored.Some? ==> r.Keys == stored.value.Keys && forall k :: k in r ==> r[k] == Decode(stored.value[k])
  {
    if stored.None? then map[] else map k | k in stored.value :: Decode(stored.value[k])
  }

  function EncodeAll(configs: map<string, WidgetConfig>): (r: map<string, ConfigJson>)
    ensures r.Keys == configs.Keys
    ensures DecodeAll(Some(r)) == configs
  {
    var r := map k | k in configs :: Encode(configs[k]);
    assert forall k :: k in configs ==> Decode(r[k]) == configs[k];
    r
  }

  /** A saved dictionary reads back as the same configurations. */
  lemma SavedConfigsReadBack(configs: map<string, WidgetConfig>)
    ensures DecodeAll(Some(EncodeAll(configs))) == configs
  {
    var r := DecodeAll(Some(EncodeAll(configs)));
    forall k | k in r ensures r[k] == configs[k] {
      EncodeDecode(configs[k]);
    }
  }

  /** The ids whose configuration has the given kind. */
  function InstancesOfKind(configs: map<string, WidgetConfig>, widgetKind: string): (r: set<string>)
    ensures forall id :: id in r <==> id in configs && configs[id].widgetKind == Some(widgetKind)
  {
    set id | id in configs && configs[id].widgetKind == Some(widgetKind)
  }

  /** The store; createDefaultKindConfig (generated per kind) is the parameter defaultKindConfig. */
  class WidgetSettingsStore<D> {
    var storedKindConfigs: Option<map<string, ConfigJson>>
    var storedConfigs: Option<map<string, ConfigJson>>
    var storedDataCache: Option<map<string, D>>
    /** The active ids as an array of strings; None when missing or of another type. */
    var storedActiveIds: Option<seq<string>>
    /** integer(forKey:), which reads 0 for a missing key. */
    var storedFrequency: int
    const defaultKindConfig: string -> WidgetConfig

    constructor(defaultKindConfig: string -> WidgetConfig)
      ensures this.defaultKindConfig == defaultKindConfig
      ensures storedKindConfigs.None? && storedConfigs.None? && storedDataCache.None? && storedActiveIds.None?
      ensures storedFrequency == 0
    {
      this.defaultKindConfig := defaultKindConfig;
      storedKindConfigs := None;
      storedConfigs := None;
      storedDataCache := None;
      storedActiveIds := None;
      storedFrequency := 0;
    }

    /** getAllKindConfigs and getAllWidgetConfigs: the decoded dictionary, or an empty one. */
    function AllKindConfigs(): (r: map<string, WidgetConfig>)
      reads this
    {
      DecodeAll(storedKindConfigs)
    }

    function AllWidgetConfigs(): (r: map<string, WidgetConfig>)
      reads this
    {
      DecodeAll(storedConfigs)
    }

    method SaveAllKindConfigs(configs: map<string, WidgetConfig>)
      modifies this`storedKindConfigs
      ensures storedKindConfigs == Some(EncodeAll(configs)) && AllKindConfigs() == configs
    {
      storedKindConfigs := Some(EncodeAll(configs));
      SavedConfigsReadBack(configs);
    }

    method SaveAllWidgetConfigs(configs: map<string, WidgetConfig>)
      modifies this`storedConfigs
      ensures storedConfigs == Some(EncodeAll(configs)) && AllWidgetConfigs() == configs
    {
      storedConfigs := Some(EncodeAll(configs));
      SavedConfigsReadBack(configs);
    }

    /** getKindConfig: the stored default of the kind, or the generated one, which is then saved. */
    method GetKindConfig(widgetKind: string) returns (r: WidgetConfig)
      modifies this`storedKindConfigs
      ensures widgetKind in old(AllKindConfigs()) ==> r == old(AllKindConfigs())[widgetKind] && storedKindConfigs == old(storedKindConfigs)
      ensures widgetKind !in old(AllKindConfigs()) ==> r == defaultKindConfig(widgetKind)
      ensures AllKindConfigs() == old(AllKindConfigs())[widgetKind := r]
    {
      var configs := AllKindConfigs();
      if widgetKind in configs {
        assert configs[widgetKind := configs[widgetKind]] == configs;
        return configs[widgetKind];
      }
      var defaultConfig := defaultKindConfig(widgetKind);
      configs := configs[widgetKind := defaultConfig];
      SaveAllKindConfigs(configs);
      return defaultConfig;
    }

    method SaveKindConfig(widgetKind: string, config: WidgetConfig)
      modifies this`storedKindConfigs
      ensures AllKindConfigs() == old(AllKindConfigs())[widgetKind := config]
    {
      var configs := AllKindConfigs();
      SaveAllKindConfigs(configs[widgetKind := config]);
    }

    method SaveWidgetConfig(widgetId: string, config: WidgetConfig)
      modifies this`storedConfigs
      ensures AllWidgetConfigs() == old(AllWidgetConfigs())[widgetId := config]
    {
      var configs := AllWidgetConfigs();
      SaveAllWidgetConfigs(configs[widgetId := config]);
    }

    /** createInstanceConfig: the kind's default with widgetKind set to the kind, saved under the id. */
    method CreateInstanceConfig(widgetId: string, widgetKind: string) returns (r: WidgetConfig)
      modifies this`storedKindConfigs, this`storedConfigs
      ensures r.widgetKind == Some(widgetKind)
      ensures widgetKind in old(AllKindConfigs()) ==> r == old(AllKindConfigs())[widgetKind].(widgetKind := Some(widgetKind))
      ensures widgetKind !in old(AllKindConfigs()) ==> r == defaultKindConfig(widgetKind).(widgetKind := Some(widgetKind))
      ensures AllWidgetConfigs() == old(AllWidgetConfigs())[widgetId := r]
      ensures widgetKind in AllKindConfigs() && AllKindConfigs()[widgetKind].(widgetKind := Some(widgetKind)) == r
    {
      var kindConfig := GetKindConfig(widgetKind);
      var instanceConfig := kindConfig.(widgetKind := Some(widgetKind));
      SaveWidgetConfig(widgetId, instanceConfig);
      return instanceConfig;
    }

    /** getWidgetKindForId: the kind of the id's own stored configuration. */
    function WidgetKindForId(widgetId: string): (r: Option<string>)
      reads this
      ensures r.Some? ==> widgetId in AllWidgetConfigs()
    {
      var configs := AllWidgetConfigs();
      if widgetId in configs then configs[widgetId].widgetKind else None
    }

    /**
     * loadWidgetConfig: the instance configuration, else the default one.
     * The branch that creates a configuration from the id's kind needs a
     * kind for an id without configuration, which getWidgetKindForId never
     * gives, so nothing is ever saved.
     */
    method LoadWidgetConfig(widgetId: string) returns (r: Option<WidgetConfig>)
      modifies this`storedKindConfigs, this`storedConfigs
      ensures r == Some(if widgetId in old(AllWidgetConfigs()) then old(AllWidgetConfigs())[widgetId] else DefaultConfig)
      ensures storedConfigs == old(storedConfigs) && storedKindConfigs == old(storedKindConfigs)
    {
      var configs := AllWidgetConfigs();
      if widgetId in configs {
        return Some(configs[widgetId]);
      }
      var widgetKind := WidgetKindForId(widgetId);
      // the id has no configuration, so it has no kind: createInstanceConfig is never reached
      assert widgetKind.None?;
      return Some(DefaultConfig);
    }

    /** The data cache: the decoded dictionary, or an empty one. */
    function DataCache(): (r: map<string, D>)
      reads this
    {
      if storedDataCache.Some? then storedDataCache.value else map[]
    }

    method SaveWidgetDataCache(cache: map<string, D>)
      modifies this`storedDataCache
      ensures DataCache() == cache
    {
      storedDataCache := Some(cache);
    }

    /** deleteWidgetConfig: the id leaves the configurations and the data cache. */
    method DeleteWidgetConfig(widgetId: string)
      modifies this`storedConfigs, this`storedDataCache
      ensures AllWidgetConfigs() == old(AllWidgetConfigs()) - {widgetId}
      ensures DataCache() == old(DataCache()) - {widgetId}
    {
      var configs := AllWidgetConfigs();
      SaveAllWidgetConfigs(configs - {widgetId});
      var dataCache := DataCache();
      SaveWidgetDataCache(dataCache - {widgetId});
    }

    /** getInstancesOfKind, as a set of ids. */
    function GetInstancesOfKind(widgetKind: string): (r: set<string>)
      reads this
      ensures forall id :: id in r <==> id in AllWidgetConfigs() && AllWidgetConfigs()[id].widgetKind == Some(widgetKind)
    {
      InstancesOfKind(AllWidgetConfigs(), widgetKind)
    }

    function GetWidgetData(widgetId: string): (r: Option<D>)
      reads this
      ensures r.Some? <==> widgetId in DataCache()
      ensures r.Some? ==> r.value == DataCache()[widgetId]
    {
      if widgetId in DataCache() then Some(DataCache()[widgetId]) else None
    }

    method UpdateWidgetData(widgetId: string, data: D)
      modifies this`storedDataCache
      ensures DataCache() == old(DataCache())[widgetId := data]
    {
      var cache := DataCache();
      SaveWidgetDataCache(cache[widgetId := data]);
    }

    method ClearWidgetData(widgetId: string)
      modifies this`storedDataCache
      ensures DataCache() == old(DataCache()) - {widgetId}
    {
      var cache := DataCache();
      SaveWidgetDataCache(cache - {widgetId});
    }

    /** getActiveWidgetIds: the stored array as a set, empty when there is none. */
    function ActiveWidgetIds(): (r: set<string>)
      reads this
      ensures storedActiveIds.None? ==> r == {}
      ensures storedActiveIds.Some? ==> forall x :: x in r <==> x in storedActiveIds.value
    {
      if storedActiveIds.Some? then set x | x in storedActiveIds.value else {}
    }

    method SaveActiveWidgetIds(ids: set<string>)
      modifies this`storedActiveIds
      ensures ActiveWidgetIds() == ids
      ensures storedActiveIds.Some? && NoDuplicates(storedActiveIds.value)
    {
      var xs := ListOf(ids);
      storedActiveIds := Some(xs);
    }

    /** addActiveWidget: set insertion, saved only when the id was new. */
    method AddActiveWidget(widgetId: string)
      modifies this`storedActiveIds
      ensures ActiveWidgetIds() == old(ActiveWidgetIds()) + {widgetId}
      ensures widgetId in old(ActiveWidgetIds()) ==> storedActiveIds == old(storedActiveIds)
    {
      var ids := ActiveWidgetIds();
      if widgetId !in ids {
        SaveActiveWidgetIds(ids + {widgetId});
      }
    }

    /** removeActiveWidget: set removal, saved only when the id was there. */
    method RemoveActiveWidget(widgetId: string)
      modifies this`storedActiveIds
      ensures ActiveWidgetIds() == old(ActiveWidgetIds()) - {widgetId}
      ensures widgetId !in old(ActiveWidgetIds()) ==> storedActiveIds == old(storedActiveIds)
    {
      var ids := ActiveWidgetIds();
      if widgetId in ids {
        SaveActiveWidgetIds(ids - {widgetId});
      }
    }

    /** getUpdateFrequency: the stored minutes when positive, else 30. */
    function UpdateFrequency(): (r: int)
      reads this
      ensures r > 0
      ensures storedFrequency > 0 ==> r == storedFrequency
      ensures storedFrequency <= 0 ==> r == 30
    {
      if storedFrequency > 0 then storedFrequency else 30
    }

    method SetUpdateFrequency(minutes: int)
      modifies this`storedFrequency
      ensures storedFrequency == minutes
      ensures UpdateFrequency() == if minutes > 0 then minutes else 30
    {
      storedFrequency := minutes;
    }
  }
}
