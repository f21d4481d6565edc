/** The `config_providers` table row: a provider's network, concurrency, proxy and custom
    provider settings, each stored as a JSON text column ("" when not stored). */
module TablesProvider {
  import opened Wrappers
  import opened Json
  import opened Schemas

  /** The `encoding/json` serialisers of the four settings. */
  datatype Serializers = Serializers(
    network: Codec<NetworkConfig>,
    concurrency: Codec<ConcurrencyAndBufferSize>,
    proxy: Codec<ProxyConfig>,
    custom: Codec<CustomProviderConfig>)

  ghost predicate Lawful(s: Serializers) {
    Json.Lawful(s.network) && Json.Lawful(s.concurrency) && Json.Lawful(s.proxy) && Json.Lawful(s.custom)
  }

  /** The stored JSON columns. */
  datatype ProviderColumns = ProviderColumns(
    networkConfigJson: string,
    concurrencyBufferJson: string,
    proxyConfigJson: string,
    customProviderConfigJson: string)

  /** A row whose JSON columns were never written. */
  const Blank := ProviderColumns("", "", "", "")

  /** The virtual (not stored) settings; a nil pointer is `None`. */
  datatype ProviderSettings = ProviderSettings(
    networkConfig: Option<NetworkConfig>,
    concurrencyAndBufferSize: Option<ConcurrencyAndBufferSize>,
    proxyConfig: Option<ProxyConfig>,
    customProviderConfig: Option<CustomProviderConfig>)

  /** The virtual settings of a row just read from the database, before AfterFind. */
  const Unloaded := ProviderSettings(None, None, None, None)

  /** The error BeforeSave returns for a custom provider without base provider type. */
  const BaseProviderTypeRequired := "base_provider_type is required when custom_provider_config is set"

  /** The outcome of BeforeSave: the columns it leaves, and the error it returns. */
  datatype Saved = Saved(columns: ProviderColumns, err: Option<string>)

  /** The outcome of AfterFind: the settings it leaves, and the error it returns. */
  datatype Loaded = Loaded(settings: ProviderSettings, err: Option<JsonError>)

  /** A custom provider configuration BeforeSave accepts. */
  predicate CustomConfigValid(custom: Option<CustomProviderConfig>) {
    custom.None? || custom.value.baseProviderType != ""
  }

  /** One column written from one setting: the encoding when the setting is present, the
      column as it was when it is nil. */
  function Encoded<T>(codec: Codec<T>, setting: Option<T>, column: string): string {
    if setting.Some? then codec.marshal(setting.value) else column
  }

  /** One setting read from one column: decoded when the column is non-empty, the setting
      as it was when the column is "". */
  function Decoded<T>(codec: Codec<T>, column: string, setting: Option<T>): Result<Option<T>, JsonError> {
    if column == "" then Ok(setting)
    else match codec.unmarshal(column)
      case Err(e) => Err(e)
      case Ok(x) => Ok(Some(x))
  }

  /** BeforeSave: writes the network, concurrency and proxy columns, then rejects a custom
      provider configuration without base provider type, else writes its column too. It
      fails exactly for such a configuration, and then leaves the custom column as it was,
      though the three other columns are already written. */
  function Save(s: Serializers, cols: ProviderColumns, v: ProviderSettings): (r: Saved)
    ensures r.err.Some? <==> !CustomConfigValid(v.customProviderConfig)
    ensures r.err.Some? ==> r.err == Some(BaseProviderTypeRequired) && r.columns.customProviderConfigJson == cols.customProviderConfigJson
    ensures v.networkConfig.Some? ==> r.columns.networkConfigJson == s.network.marshal(v.networkConfig.value)
    ensures v.concurrencyAndBufferSize.Some? ==> r.columns.concurrencyBufferJson == s.concurrency.marshal(v.concurrencyAndBufferSize.value)
    ensures v.proxyConfig.Some? ==> r.columns.proxyConfigJson == s.proxy.marshal(v.proxyConfig.value)
    ensures r.err.None? && v.customProviderConfig.Some? ==> r.columns.customProviderConfigJson == s.custom.marshal(v.customProviderConfig.value)
  {
    var written := cols.(
      networkConfigJson := Encoded(s.network, v.networkConfig, cols.networkConfigJson),
      concurrencyBufferJson := Encoded(s.concurrency, v.concurrencyAndBufferSize, cols.concurrencyBufferJson),
      proxyConfigJson := Encoded(s.proxy, v.proxyConfig, cols.proxyConfigJson));
    if !CustomConfigValid(v.customProviderConfig) then
      Saved(written, Some(BaseProviderTypeRequired))
    else
      Saved(written.(customProviderConfigJson := Encoded(s.custom, v.customProviderConfig, cols.customProviderConfigJson)), None)
  }

  /** AfterFind: decodes the four columns in order, stopping at the first error with the
      settings already decoded in place and the rest as before. */
  function Find(s: Serializers, cols: ProviderColumns, prior: ProviderSettings): (r: Loaded)
    ensures cols.networkConfigJson == "" ==> r.settings.networkConfig == prior.networkConfig
    ensures cols.concurrencyBufferJson == "" ==> r.settings.concurrencyAndBufferSize == prior.concurrencyAndBufferSize
    ensures cols.proxyConfigJson == "" ==> r.settings.proxyConfig == prior.proxyConfig
    ensures cols.customProviderConfigJson == "" ==> r.settings.customProviderConfig == prior.customProviderConfig
    ensures r.err.None? && cols.networkConfigJson != "" ==>
      r.settings.networkConfig.Some? && s.network.unmarshal(cols.networkConfigJson) == Ok(r.settings.networkConfig.value)
    ensures r.err.None? && cols.concurrencyBufferJson != "" ==>
      r.settings.concurrencyAndBufferSize.Some? && s.concurrency.unmarshal(cols.concurrencyBufferJson) == Ok(r.settings.concurrencyAndBufferSize.value)
    ensures r.err.None? && cols.proxyConfigJson != "" ==>
      r.settings.proxyConfig.Some? && s.proxy.unmarshal(cols.proxyConfigJson) == Ok(r.settings.proxyConfig.value)
    ensures r.err.None? && cols.customProviderConfigJson != "" ==>
      r.settings.customProviderConfig.Some? && s.custom.unmarshal(cols.customProviderConfigJson) == Ok(r.settings.customProviderConfig.value)
  {
    match Decoded(s.network, cols.networkConfigJson, prior.networkConfig)
    case Err(e) => Loaded(prior, Some(e))
    case Ok(network) =>
      var v1 := prior.(networkConfig := network);
      match Decoded(s.concurrency, cols.concurrencyBufferJson, prior.concurrencyAndBufferSize)
      case Err(e) => Loaded(v1, Some(e))
      case Ok(concurrency) =>
        var v2 := v1.(concurrencyAndBufferSize := concurrency);
        match Decoded(s.proxy, cols.proxyConfigJson, prior.proxyConfig)
        case Err(e) => Loaded(v2, Some(e))
        case Ok(proxy) =>
          var v3 := v2.(proxyConfig := proxy);
          match Decoded(s.custom, cols.customProviderConfigJson, prior.customProviderConfig)
          case Err(e) => Loaded(v3, Some(e))
          case Ok(custom) => Loaded(v3.(customProviderConfig := custom), None)
  }

  /** A nil setting leaves its column as it was: BeforeSave never clears a column. */
  lemma NilSettingKeepsColumn(s: Serializers, cols: ProviderColumns, v: ProviderSettings)
    ensures var r := Save(s, cols, v).columns;
      && (v.networkConfig.None? ==> r.networkConfigJson == cols.networkConfigJson)
      && (v.concurrencyAndBufferSize.None? ==> r.concurrencyBufferJson == cols.concurrencyBufferJson)
      && (v.proxyConfig.None? ==> r.proxyConfigJson == cols.proxyConfigJson)
      && (v.customProviderConfig.None? ==> r.customProviderConfigJson == cols.customProviderConfigJson)
  {
  }

  /** After a successful save, every present setting is read back equal, whatever the
      columns and the settings held before, unless a stale column of a nil setting fails to
      decode first; with all four settings present the read cannot fail. */
  lemma PresentSettingsRestored(s: Serializers, cols: ProviderColumns, v: ProviderSettings, prior: ProviderSettings)
    requires Lawful(s) && CustomConfigValid(v.customProviderConfig)
    ensures var r := Find(s, Save(s, cols, v).columns, prior);
      && (v.networkConfig.Some? && v.concurrencyAndBufferSize.Some? && v.proxyConfig.Some? && v.customProviderConfig.Some? ==> r.err.None?)
      && (r.err.None? && v.networkConfig.Some? ==> r.settings.networkConfig == v.networkConfig)
      && (r.err.None? && v.concurrencyAndBufferSize.Some? ==> r.settings.concurrencyAndBufferSize == v.concurrencyAndBufferSize)
      && (r.err.None? && v.proxyConfig.Some? ==> r.settings.proxyConfig == v.proxyConfig)
      && (r.err.None? && v.customProviderConfig.Some? ==> r.settings.customProviderConfig == v.customProviderConfig)
  {
    DecodesWritten(s, cols, v);
  }

  /** Under lawful serialisers, the column of every present setting of a saved row is
      non-empty and decodes to that setting. */
  lemma DecodesWritten(s: Serializers, cols: ProviderColumns, v: ProviderSettings)
    requires Lawful(s) && CustomConfigValid(v.customProviderConfig)
    ensures var r := Save(s, cols, v).columns;
      && (v.networkConfig.Some? ==> s.network.unmarshal(r.networkConfigJson) == Ok(v.networkConfig.value) && r.networkConfigJson != "")
      && (v.concurrencyAndBufferSize.Some? ==> s.concurrency.unmarshal(r.concurrencyBufferJson) == Ok(v.concurrencyAndBufferSize.value) && r.concurrencyBufferJson != "")
      && (v.proxyConfig.Some? ==> s.proxy.unmarshal(r.proxyConfigJson) == Ok(v.proxyConfig.value) && r.proxyConfigJson != "")
      && (v.customProviderConfig.Some? ==> s.custom.unmarshal(r.customProviderConfigJson) == Ok(v.customProviderConfig.value) && r.customProviderConfigJson != "")
  {
  }

  /** A row saved for the first time and read back fresh gives back exactly its settings. */
  lemma ProviderRoundTrip(s: Serializers, v: ProviderSettings)
    requires Lawful(s) && CustomConfigValid(v.customProviderConfig)
    ensures Save(s, Blank, v).err.None?
    ensures Find(s, Save(s, Blank, v).columns, Unloaded) == Loaded(v, None)
  {
    DecodesWritten(s, Blank, v);
  }

  /** A setting cleared to nil on a row that had it stored comes back on the next read:
      the stale column is neither cleared by BeforeSave nor skipped by AfterFind. */
  lemma ClearedSettingComesBack(s: Serializers, stored: NetworkConfig, cols: ProviderColumns, v: ProviderSettings)
    requires Lawful(s) && CustomConfigValid(v.customProviderConfig)
    requires cols.networkConfigJson == s.network.marshal(stored)
    requires v.networkConfig.None?
    ensures var r := Find(s, Save(s, cols, v).columns, Unloaded);
      r.err.None? ==> r.settings.networkConfig == Some(stored)
  {
  }

  /** AfterFind fails exactly when a non-empty column does not decode. */
  lemma FindFailsIff(s: Serializers, cols: ProviderColumns, prior: ProviderSettings)
    ensures Find(s, cols, prior).err.Some? <==>
      || (cols.networkConfigJson != "" && s.network.unmarshal(cols.networkConfigJson).Err?)
      || (cols.concurrencyBufferJson != "" && s.concurrency.unmarshal(cols.concurrencyBufferJson).Err?)
      || (cols.proxyConfigJson != "" && s.proxy.unmarshal(cols.proxyConfigJson).Err?)
      || (cols.customProviderConfigJson != "" && s.custom.unmarshal(cols.customProviderConfigJson).Err?)
  {
  }

  class TableProvider {
    var networkConfigJson: string
    var concurrencyBufferJson: string
    var proxyConfigJson: string
    var customProviderConfigJson: string

    var networkConfig: Option<NetworkConfig>
    var concurrencyAndBufferSize: Option<ConcurrencyAndBufferSize>
    var proxyConfig: Option<ProxyConfig>
    var customProviderConfig: Option<CustomProviderConfig>

    function Columns(): ProviderColumns
      reads this
    {
      ProviderColumns(networkConfigJson, concurrencyBufferJson, proxyConfigJson, customProviderConfigJson)
    }

    function Settings(): ProviderSettings
      reads this
    {
      ProviderSettings(networkConfig, concurrencyAndBufferSize, proxyConfig, customProviderConfig)
    }

    /** A row as the database hands it over: columns set, settings nil. */
    constructor FromRow(cols: ProviderColumns)
      ensures Columns() == cols && Settings() == Unloaded
    {
      networkConfigJson, concurrencyBufferJson := cols.networkConfigJson, cols.concurrencyBufferJson;
      proxyConfigJson, customProviderConfigJson := cols.proxyConfigJson, cols.customProviderConfigJson;
      networkConfig, concurrencyAndBufferSize, proxyConfig, customProviderConfig := None, None, None, None;
    }

    /** A row as the application builds it: settings set, columns blank. */
    constructor FromSettings(v: ProviderSettings)
      ensures Columns() == Blank && Settings() == v
    {
      networkConfigJson, concurrencyBufferJson, proxyConfigJson, customProviderConfigJson := "", "", "", "";
      networkConfig, concurrencyAndBufferSize := v.networkConfig, v.concurrencyAndBufferSize;
      proxyConfig, customProviderConfig := v.proxyConfig, v.customProviderConfig;
    }

    /** BeforeSave: writes the columns of the present settings, rejecting an invalid custom
        provider configuration partway. */
    method BeforeSave(s: Serializers) returns (err: Option<string>)
      modifies this
      ensures Saved(Columns(), err) == Save(s, old(Columns()), old(Settings()))
      ensures Settings() == old(Settings())
    {
      if networkConfig.Some? {
        networkConfigJson := s.network.marshal(networkConfig.value);
      }
      if concurrencyAndBufferSize.Some? {
        concurrencyBufferJson := s.concurrency.marshal(concurrencyAndBufferSize.value);
      }
      if proxyConfig.Some? {
        proxyConfigJson := s.proxy.marshal(proxyConfig.value);
      }
      if customProviderConfig.Some? && customProviderConfig.value.baseProviderType == "" {
        return Some(BaseProviderTypeRequired);
      }
      if customProviderConfig.Some? {
        customProviderConfigJson := s.custom.marshal(customProviderConfig.value);
      }
      return None;
    }

    /** AfterFind: decodes each non-empty column into its setting, stopping at the first
        decoding error. */
    method AfterFind(s: Serializers) returns (err: Option<JsonError>)
      modifies this
      ensures Loaded(Settings(), err) == Find(s, old(Columns()), old(Settings()))
      ensures Columns() == old(Columns())
    {
      if networkConfigJson != "" {
        var config := s.network.unmarshal(networkConfigJson);
        if config.Err? {
          return Some(config.error);
        }
        networkConfig := Some(config.value);
      }
      if concurrencyBufferJson != "" {
        var config := s.concurrency.unmarshal(concurrencyBufferJson);
        if config.Err? {
          return Some(config.error);
        }
        concurrencyAndBufferSize := Some(config.value);
      }
      if proxyConfigJson != "" {
        var config := s.proxy.unmarshal(proxyConfigJson);
        if config.Err? {
          return Some(config.error);
        }
        proxyConfig := Some(config.value);
      }
      if customProviderConfigJson != "" {
        var config := s.custom.unmarshal(customProviderConfigJson);
        if config.Err? {
          return Some(config.error);
        }
        customProviderConfig := Some(config.value);
      }
      return None;
    }
  }

  /** A new provider row written by BeforeSave and read back into a fresh row by AfterFind:
      rejected when its custom configuration lacks a base provider type, otherwise given
      back exactly. */
  method SaveAndReload(s: Serializers, v: ProviderSettings) returns (loaded: ProviderSettings, saveErr: Option<string>, findErr: Option<JsonError>)
    requires Lawful(s)
    ensures saveErr.Some? <==> !CustomConfigValid(v.customProviderConfig)
    ensures saveErr.Some? ==> saveErr == Some(BaseProviderTypeRequired)
    ensures saveErr.None? ==> findErr.None? && loaded == v
  {
    var written := new TableProvider.FromSettings(v);
    saveErr := written.BeforeSave(s);
    var read := new TableProvider.FromRow(written.Columns());
    findErr := read.AfterFind(s);
    loaded := read.Settings();
    if saveErr.None? {
      ProviderRoundTrip(s, v);
    }
  }
}
