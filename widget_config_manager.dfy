/**
 * The app-side store of widget configurations: one configuration per
 * widget instance and one default per widget kind, each kept as a JSON
 * text in the application settings and loaded on first use; plus the
 * update frequency and cache timeout settings.
 */
module WidgetConfigManager {
  import opened Base

  /** WidgetConfig; None is an absent optional field. */
  datatype WidgetConfig = WidgetConfig(
    locationName: string, latitude: Option<real>, longitude: Option<real>,
    model: Option<string>, provider: Option<string>, widgetKind: Option<string>)

  /**
   * What a settings key holds: nothing (or the empty string, which is
   * falsy), a text JSON.parse rejects, or the JSON of a configuration map.
   */
  datatype Stored = Absent | Malformed | Json(configs: map<string, WidgetConfig>)

  /** loadConfigs / loadKindConfigs: the parsed map, or an empty one. */
  function Parse(stored: Stored): (r: map<string, WidgetConfig>)
    ensures !stored.Json? ==> r == map[]
  {
    if stored.Json? then stored.configs else map[]
  }

  /** The per-instance configuration a caller is given: Some only when one is stored for that id. */
  function ConfigOf(configs: map<string, WidgetConfig>, widgetId: string): (r: Option<WidgetConfig>)
    ensures r.Some? <==> widgetId in configs
    ensures r.Some? ==> r.value == configs[widgetId]
  {
    if widgetId in configs then Some(configs[widgetId]) else None
  }

  /** The configuration saveConfig stores: the given one with widgetKind = the argument, or the config's own. */
  function WithKind(config: WidgetConfig, widgetKind: Option<string>): (r: WidgetConfig)
    ensures r.widgetKind == (if widgetKind.Some? && widgetKind.value != [] then widgetKind else config.widgetKind)
    ensures r.(widgetKind := config.widgetKind) == config
  {
    config.(widgetKind := if widgetKind.Some? && widgetKind.value != [] then widgetKind else config.widgetKind)
  }

  /** Object.keys(configs).filter(id => configs[id].widgetKind === widgetKind), as a set. */
  function InstancesOfKind(configs: map<string, WidgetConfig>, widgetKind: string): (r: set<string>)
    ensures forall id :: id in r <==> id in configs && configs[id].widgetKind == Some(widgetKind)
  {
    set id | id in configs && configs[id].widgetKind == Some(widgetKind)
  }

  /** Saving then deleting an id leaves the other ids' configurations as they were. */
  lemma SaveThenDelete(configs: map<string, WidgetConfig>, widgetId: string, config: WidgetConfig, other: string)
    requires other != widgetId
    ensures ConfigOf(configs[widgetId := config] - {widgetId}, other) == ConfigOf(configs, other)
    ensures ConfigOf(configs[widgetId := config] - {widgetId}, widgetId).None?
  {
  }

  /** A saved instance is found among the instances of the kind it was saved with, and nowhere else. */
  lemma SavedInstanceOfKind(configs: map<string, WidgetConfig>, widgetId: string, config: WidgetConfig, kind: string, other: string)
    requires kind != []
    ensures widgetId in InstancesOfKind(configs[widgetId := WithKind(config, Some(kind))], kind)
    ensures other != kind ==> widgetId !in InstancesOfKind(configs[widgetId := WithKind(config, Some(kind))], other)
  {
  }

  const DefaultUpdateFrequency: real := 30.0
  const DefaultCacheTimeout: real := 60.0

  class ConfigStore {
    /** The settings keys widget_configs and widget_kind_configs. */
    var storedConfigs: Stored
    var storedKindConfigs: Stored
    /** The settings keys widget_update_frequency and widget_cache_timeout; None when unset. */
    var storedUpdateFrequency: Option<real>
    var storedCacheTimeout: Option<real>
    /** The static maps; None until first loaded. */
    var configs: Option<map<string, WidgetConfig>>
    var kindConfigs: Option<map<string, WidgetConfig>>

    constructor(storedConfigs: Stored, storedKindConfigs: Stored, frequency: Option<real>, timeout: Option<real>)
      ensures this.storedConfigs == storedConfigs && this.storedKindConfigs == storedKindConfigs
      ensures storedUpdateFrequency == frequency && storedCacheTimeout == timeout
      ensures configs.None? && kindConfigs.None?
    {
      this.storedConfigs := storedConfigs;
      this.storedKindConfigs := storedKindConfigs;
      storedUpdateFrequency := frequency;
      storedCacheTimeout := timeout;
      configs := None;
      kindConfigs := None;
    }

    /** The instance map as getAllConfigs sees it: the loaded one, or the stored one parsed. */
    function CurrentConfigs(): (r: map<string, WidgetConfig>)
      reads this
    {
      if configs.Some? then configs.value else Parse(storedConfigs)
    }

    function CurrentKindConfigs(): (r: map<string, WidgetConfig>)
      reads this
    {
      if kindConfigs.Some? then kindConfigs.value else Parse(storedKindConfigs)
    }

    method GetAllConfigs() returns (r: map<string, WidgetConfig>)
      modifies this`configs
      ensures r == old(CurrentConfigs()) && configs == Some(r)
    {
      if configs.None? {
        configs := Some(Parse(storedConfigs));
      }
      r := configs.value;
    }

    method GetAllKindConfigs() returns (r: map<string, WidgetConfig>)
      modifies this`kindConfigs
      ensures r == old(CurrentKindConfigs()) && kindConfigs == Some(r)
    {
      if kindConfigs.None? {
        kindConfigs := Some(Parse(storedKindConfigs));
      }
      r := kindConfigs.value;
    }

    /** reloadConfigs: both maps parsed again from the settings. */
    method ReloadConfigs()
      modifies this`configs, this`kindConfigs
      ensures kindConfigs == Some(Parse(storedKindConfigs)) && configs == Some(Parse(storedConfigs))
    {
      kindConfigs := Some(Parse(storedKindConfigs));
      configs := Some(Parse(storedConfigs));
    }

    method GetKindConfig(widgetKind: string) returns (r: Option<WidgetConfig>)
      modifies this`kindConfigs
      ensures r == ConfigOf(old(CurrentKindConfigs()), widgetKind) && kindConfigs == Some(old(CurrentKindConfigs()))
    {
      var all := GetAllKindConfigs();
      r := ConfigOf(all, widgetKind);
    }

    method SaveKindConfig(widgetKind: string, config: WidgetConfig)
      modifies this`kindConfigs, this`storedKindConfigs
      ensures kindConfigs == Some(old(CurrentKindConfigs())[widgetKind := config])
      ensures storedKindConfigs == Json(kindConfigs.value)
    {
      var all := GetAllKindConfigs();
      kindConfigs := Some(all[widgetKind := config]);
      storedKindConfigs := Json(kindConfigs.value);
    }

    /** getConfig: the instance's configuration, or None (null). */
    method GetConfig(widgetId: string) returns (r: Option<WidgetConfig>)
      modifies this`configs
      ensures r == ConfigOf(old(CurrentConfigs()), widgetId) && configs == Some(old(CurrentConfigs()))
    {
      var all := GetAllConfigs();
      r := ConfigOf(all, widgetId);
    }

    method SaveConfig(widgetId: string, config: WidgetConfig, widgetKind: Option<string>)
      modifies this`configs, this`storedConfigs
      ensures configs == Some(old(CurrentConfigs())[widgetId := WithKind(config, widgetKind)])
      ensures storedConfigs == Json(configs.value)
    {
      var all := GetAllConfigs();
      configs := Some(all[widgetId := WithKind(config, widgetKind)]);
      storedConfigs := Json(configs.value);
    }

    method DeleteConfig(widgetId: string)
      modifies this`configs, this`storedConfigs
      ensures configs == Some(old(CurrentConfigs()) - {widgetId})
      ensures storedConfigs == Json(configs.value)
    {
      var all := GetAllConfigs();
      configs := Some(all - {widgetId});
      storedConfigs := Json(configs.value);
    }

    method GetInstancesOfKind(widgetKind: string) returns (r: set<string>)
      modifies this`configs
      ensures r == InstancesOfKind(old(CurrentConfigs()), widgetKind) && configs == Some(old(CurrentConfigs()))
    {
      var all := GetAllConfigs();
      r := InstancesOfKind(all, widgetKind);
    }

    /** getUpdateFrequency: the setting, 30 minutes when unset. */
    function UpdateFrequency(): (r: real)
      reads this
      ensures storedUpdateFrequency.None? ==> r == DefaultUpdateFrequency
      ensures storedUpdateFrequency.Some? ==> r == storedUpdateFrequency.value
    {
      if storedUpdateFrequency.Some? then storedUpdateFrequency.value else DefaultUpdateFrequency
    }

    method SetUpdateFrequency(minutes: real)
      modifies this`storedUpdateFrequency
      ensures storedUpdateFrequency == Some(minutes) && UpdateFrequency() == minutes
    {
      storedUpdateFrequency := Some(minutes);
    }

    /** getCacheTimeout: the setting, 60 seconds when unset. */
    function CacheTimeout(): (r: real)
      reads this
      ensures storedCacheTimeout.None? ==> r == DefaultCacheTimeout
      ensures storedCacheTimeout.Some? ==> r == storedCacheTimeout.value
    {
      if storedCacheTimeout.Some? then storedCacheTimeout.value else DefaultCacheTimeout
    }

    method SetCacheTimeout(seconds: real)
      modifies this`storedCacheTimeout
      ensures storedCacheTimeout == Some(seconds) && CacheTimeout() == seconds
    {
      storedCacheTimeout := Some(seconds);
    }
  }
}
