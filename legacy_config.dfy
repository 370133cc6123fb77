/**
 * The older copy of the configuration package, config/models.go: the same
 * precision table, and a loader whose naming rule always overwrites a
 * configuration's name with its file name.
 */
module LegacyConfig {
  import opened Wrappers
  import Config

  /** Bytes per element of each precision name (a second copy of the table). */
  const DataTypeSizes: map<string, real> :=
    map["float32" := 4.0, "float16" := 2.0, "bfloat16" := 2.0, "int8" := 1.0, "int4" := 0.5]

  /** The two copies of the precision table agree entry for entry. */
  lemma SameTableAsConfig()
    ensures DataTypeSizes == Config.DataTypeSizes
  {
  }

  /**
   * `LoadModelConfigs`: a missing or unreadable directory and an empty result
   * are errors; otherwise every loaded configuration is named by its key.
   */
  method LoadModelConfigs(listing: Option<seq<Config.DirEntry>>)
    returns (res: Result<map<string, Config.ModelConfig>, Config.LoadError>)
    ensures listing.None? ==> res == Failure(Config.DirectoryUnavailable)
    ensures listing.Some? && Config.Loaded(listing.value, Config.AlwaysFileName) == map[] ==>
              res == Failure(Config.NoValidConfigs)
    ensures listing.Some? && Config.Loaded(listing.value, Config.AlwaysFileName) != map[] ==>
              res == Success(Config.Loaded(listing.value, Config.AlwaysFileName))
    ensures res.Success? ==> |res.value| > 0 && forall key :: key in res.value ==> res.value[key].name == key
  {
    if listing.None? {
      return Failure(Config.DirectoryUnavailable);
    }
    var models := Config.CollectConfigs(listing.value, Config.AlwaysFileName);
    if |models| == 0 {
      return Failure(Config.NoValidConfigs);
    }
    forall key | key in models
      ensures models[key].name == key
    {
      NameIsKey(listing.value, key);
    }
    return Success(models);
  }

  /** Under this loader's rule the stored name is always the key, whatever the file said. */
  lemma NameIsKey(entries: seq<Config.DirEntry>, key: string)
    requires key in Config.Loaded(entries, Config.AlwaysFileName)
    ensures Config.Loaded(entries, Config.AlwaysFileName)[key].name == key
  {
    Config.LoadedValue(entries, Config.AlwaysFileName, key);
  }
}
