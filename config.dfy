/**
 * The precision table and the model-configuration loader of pkg/config/models.go.
 *
 * The loader's filesystem work (locating the models directory, listing it,
 * reading and JSON-decoding each file) is taken as an input: a listing that is
 * either unavailable or a sequence of directory entries, each carrying the
 * configuration its file decoded to, or nothing when reading or decoding failed.
 */
module Config {
  import opened Wrappers

  /** Bytes per element of each precision name. */
  const DataTypeSizes: map<string, real> :=
    map["float32" := 4.0, "float16" := 2.0, "bfloat16" := 2.0, "int8" := 1.0, "int4" := 0.5]

  /** The five precision names and their sizes; every size is positive. */
  lemma DataTypeSizesTable()
    ensures DataTypeSizes.Keys == {"float32", "float16", "bfloat16", "int8", "int4"}
    ensures |DataTypeSizes| == 5
    ensures DataTypeSizes["float32"] == 4.0
    ensures DataTypeSizes["float16"] == DataTypeSizes["bfloat16"] == 2.0
    ensures DataTypeSizes["int8"] == 1.0 && DataTypeSizes["int4"] == 0.5
    ensures forall p :: p in DataTypeSizes ==> DataTypeSizes[p] > 0.0
  {
    assert |DataTypeSizes.Keys| == |{"float32", "float16", "bfloat16", "int8", "int4"}|;
  }

  datatype ModelConfig = ModelConfig(
    name: string,
    modelSize: real,
    hiddenSize: int,
    numHiddenLayers: int,
    numAttentionHeads: int,
    numKeyValueHeads: int,
    sequenceLength: int,
    precision: string)

  /** One entry of the models directory; `config` is None when the file could not be read or decoded. */
  datatype DirEntry = DirEntry(name: string, isDir: bool, config: Option<ModelConfig>)

  datatype LoadError = DirectoryUnavailable | NoValidConfigs

  /** How a loaded configuration's name relates to its file name. */
  datatype NamingRule =
    | NameIfEmpty     // pkg/config/models.go: keep the file's own name, fill it only when empty
    | AlwaysFileName  // config/models.go: always overwrite it with the file name

  const JsonSuffix: string := ".json"

  predicate HasSuffix(s: string, suffix: string) {
    |suffix| <= |s| && s[|s| - |suffix|..] == suffix
  }

  /** `strings.TrimSuffix`: s without suffix when it ends in it, else s unchanged. */
  function TrimSuffix(s: string, suffix: string): (r: string)
    ensures HasSuffix(s, suffix) ==> r + suffix == s
    ensures !HasSuffix(s, suffix) ==> r == s
  {
    if HasSuffix(s, suffix) then s[..|s| - |suffix|] else s
  }

  /** Only regular files whose name ends in ".json" are read. */
  predicate Selected(e: DirEntry) {
    !e.isDir && HasSuffix(e.name, JsonSuffix)
  }

  /** A selected entry whose file was read and decoded. */
  predicate Loadable(e: DirEntry) {
    Selected(e) && e.config.Some?
  }

  /** The key a configuration is stored under: its file name minus ".json". */
  function ModelKey(e: DirEntry): string {
    TrimSuffix(e.name, JsonSuffix)
  }

  /** The configuration as stored under key, after the naming rule. */
  function Named(c: ModelConfig, key: string, rule: NamingRule): (r: ModelConfig)
    ensures r.(name := c.name) == c
    ensures rule == AlwaysFileName ==> r.name == key
    ensures rule == NameIfEmpty ==> r.name == (if c.name == "" then key else c.name)
  {
    if rule == AlwaysFileName || c.name == "" then c.(name := key) else c
  }

  /** The map the loader's loop has built after visiting entries in order. */
  function Loaded(entries: seq<DirEntry>, rule: NamingRule): map<string, ModelConfig>
    decreases |entries|
  {
    if entries == [] then map[]
    else
      var models := Loaded(entries[..|entries| - 1], rule);
      var e := entries[|entries| - 1];
      if Loadable(e) then models[ModelKey(e) := Named(e.config.value, ModelKey(e), rule)] else models
  }

  /** The loop of `LoadModelConfigs`: visit the entries in order, storing each loadable one by key. */
  method CollectConfigs(entries: seq<DirEntry>, rule: NamingRule) returns (models: map<string, ModelConfig>)
    ensures models == Loaded(entries, rule)
  {
    models := map[];
    var i := 0;
    while i < |entries|
      invariant 0 <= i <= |entries|
      invariant models == Loaded(entries[..i], rule)
    {
      var file := entries[i];
      assert entries[..i + 1][..i] == entries[..i];
      if !file.isDir && HasSuffix(file.name, JsonSuffix) {
        match file.config {
          case None =>
          case Some(config) =>
            var modelName := TrimSuffix(file.name, JsonSuffix);
            if config.name == "" || rule == AlwaysFileName {
              config := config.(name := modelName);
            }
            models := models[modelName := config];
        }
      }
      i := i + 1;
    }
    assert entries[..i] == entries;
  }

  /** `LoadModelConfigs`: an unavailable directory and an empty result are both errors. */
  method LoadModelConfigs(listing: Option<seq<DirEntry>>) returns (res: Result<map<string, ModelConfig>, LoadError>)
    ensures listing.None? ==> res == Failure(DirectoryUnavailable)
    ensures listing.Some? && Loaded(listing.value, NameIfEmpty) == map[] ==> res == Failure(NoValidConfigs)
    ensures listing.Some? && Loaded(listing.value, NameIfEmpty) != map[] ==>
              res == Success(Loaded(listing.value, NameIfEmpty))
  {
    if listing.None? {
      return Failure(DirectoryUnavailable);
    }
    var models := CollectConfigs(listing.value, NameIfEmpty);
    if |models| == 0 {
      return Failure(NoValidConfigs);
    }
    return Success(models);
  }

  /** A key is loaded exactly when some loadable entry has it. */
  lemma {:induction false} LoadedKeys(entries: seq<DirEntry>, rule: NamingRule, key: string)
    ensures key in Loaded(entries, rule) <==>
            exists i :: 0 <= i < |entries| && Loadable(entries[i]) && ModelKey(entries[i]) == key
    decreases |entries|
  {
    if entries != [] {
      var front := entries[..|entries| - 1];
      LoadedKeys(front, rule, key);
      if key in Loaded(front, rule) {
        var i :| 0 <= i < |front| && Loadable(front[i]) && ModelKey(front[i]) == key;
        assert entries[i] == front[i];
      }
      forall i | 0 <= i < |entries| - 1
        ensures entries[i] == front[i]
      {
      }
    }
  }

  /**
   * The configuration stored under a key is the one of the LAST loadable entry
   * with that key, named by the rule.
   */
  lemma {:induction false} LoadedValue(entries: seq<DirEntry>, rule: NamingRule, key: string)
    requires key in Loaded(entries, rule)
    ensures exists i :: LastWithKey(entries, key, i) &&
              Loaded(entries, rule)[key] == Named(entries[i].config.value, key, rule)
    decreases |entries|
  {
    var n := |entries|;
    var front := entries[..n - 1];
    var e := entries[n - 1];
    if Loadable(e) && ModelKey(e) == key {
      assert LastWithKey(entries, key, n - 1);
    } else {
      assert key in Loaded(front, rule) && Loaded(entries, rule)[key] == Loaded(front, rule)[key];
      LoadedValue(front, rule, key);
      var i :| LastWithKey(front, key, i) &&
               Loaded(front, rule)[key] == Named(front[i].config.value, key, rule);
      LastWithKeyExtends(entries, key, i);
    }
  }

  /** Entry i is loadable with key and no later loadable entry has that key. */
  predicate LastWithKey(entries: seq<DirEntry>, key: string, i: int) {
    0 <= i < |entries| && Loadable(entries[i]) && ModelKey(entries[i]) == key &&
    forall j :: i < j < |entries| && Loadable(entries[j]) ==> ModelKey(entries[j]) != key
  }

  /** The last entry with a key stays last when an entry with another key (or an unloadable one) follows. */
  lemma LastWithKeyExtends(entries: seq<DirEntry>, key: string, i: int)
    requires |entries| > 0 && LastWithKey(entries[..|entries| - 1], key, i)
    requires !(Loadable(entries[|entries| - 1]) && ModelKey(entries[|entries| - 1]) == key)
    ensures LastWithKey(entries, key, i)
  {
    var front := entries[..|entries| - 1];
    assert entries[i] == front[i];
    forall j | i < j < |entries| && Loadable(entries[j])
      ensures ModelKey(entries[j]) != key
    {
      if j < |entries| - 1 {
        assert entries[j] == front[j];
      }
    }
  }


  /** Every loaded configuration came from a regular ".json" file and is keyed by its name minus ".json". */
  lemma LoadedFromJsonFiles(entries: seq<DirEntry>, rule: NamingRule, key: string)
    requires key in Loaded(entries, rule)
    ensures exists i :: 0 <= i < |entries| && !entries[i].isDir && entries[i].name == key + JsonSuffix
  {
    LoadedKeys(entries, rule, key);
    var i :| 0 <= i < |entries| && Loadable(entries[i]) && ModelKey(entries[i]) == key;
    assert entries[i].name == key + JsonSuffix;
  }

  /** Under pkg/config/models.go's rule the last file with a key keeps its own non-empty name; an empty one becomes the key. */
  lemma NameKeptUnlessEmpty(entries: seq<DirEntry>, key: string)
    requires key in Loaded(entries, NameIfEmpty)
    ensures Loaded(entries, NameIfEmpty)[key].name == key ||
            exists i :: LastWithKey(entries, key, i) &&
                        entries[i].config.value.name == Loaded(entries, NameIfEmpty)[key].name != ""
  {
    LoadedValue(entries, NameIfEmpty, key);
  }

  /** A successful load is never empty. */
  lemma LoadNeverEmpty(entries: seq<DirEntry>, rule: NamingRule)
    ensures Loaded(entries, rule) == map[] <==> forall i :: 0 <= i < |entries| ==> !Loadable(entries[i])
  {
    if Loaded(entries, rule) != map[] {
      var key :| key in Loaded(entries, rule);
      LoadedKeys(entries, rule, key);
    } else {
      forall i | 0 <= i < |entries|
        ensures !Loadable(entries[i])
      {
        LoadedKeys(entries, rule, ModelKey(entries[i]));
      }
    }
  }
}
