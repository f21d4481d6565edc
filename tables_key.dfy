/** The `config_keys` table row: an API key whose model list and per-provider settings are
    flattened into nullable columns before a write (BeforeSave) and rebuilt from them after a
    read (AfterFind). A Go nil pointer, slice or map is `None`. */
module TablesKey {
  import opened Wrappers
  import opened Json
  import opened Schemas
  import opened ListColumn

  /** The serialisers the hooks call: `encoding/json` for the model list and the Azure
      deployments, `sonic` to write the Bedrock deployments, which `encoding/json` reads. */
  datatype Serializers = Serializers(
    stringList: Codec<Option<seq<string>>>,
    jsonMap: Codec<Option<map<string, string>>>,
    sonicMap: Codec<Option<map<string, string>>>)

  /** What the round trips rely on from the serialisers. */
  ghost predicate Lawful(s: Serializers) {
    && LawfulList(s.stringList)
    && Json.Lawful(s.jsonMap)
    && Compatible(s.sonicMap, s.jsonMap)
  }

  /** The Azure column group. */
  datatype AzureColumns = AzureColumns(endpoint: Option<string>, apiVersion: Option<string>, deploymentsJson: Option<string>)

  /** The Vertex column group. */
  datatype VertexColumns = VertexColumns(projectId: Option<string>, region: Option<string>, authCredentials: Option<string>)

  /** The Bedrock column group. */
  datatype BedrockColumns = BedrockColumns(
    accessKey: Option<string>,
    secretKey: Option<string>,
    sessionToken: Option<string>,
    region: Option<string>,
    arn: Option<string>,
    deploymentsJson: Option<string>)

  /** The stored columns the hooks write and read. */
  datatype KeyColumns = KeyColumns(
    modelsJson: string,
    azure: AzureColumns,
    vertex: VertexColumns,
    bedrock: BedrockColumns,
    apertusEndpoint: Option<string>)

  /** The virtual (not stored) fields the hooks read and write. */
  datatype KeyConfigs = KeyConfigs(
    models: Option<seq<string>>,
    azure: Option<AzureKeyConfig>,
    vertex: Option<VertexKeyConfig>,
    bedrock: Option<BedrockKeyConfig>,
    apertus: Option<ApertusKeyConfig>)

  /** The virtual fields of a row just read from the database, before AfterFind. */
  const Unloaded := KeyConfigs(None, None, None, None, None)

  /** The outcome of AfterFind: the virtual fields it leaves, and the error it returns. */
  datatype Loaded = Loaded(configs: KeyConfigs, err: Option<JsonError>)

  /** The column written for a string field whose empty value is stored as NULL. */
  function NullIfEmpty(s: string): Option<string> {
    if s != "" then Some(s) else None
  }

  /** The field read back from such a column: NULL reads as the empty string. */
  function EmptyIfNull(c: Option<string>): string {
    if c.Some? then c.value else ""
  }

  // ---------------------------------------------------------------------------------------
  // BeforeSave, group by group

  function SaveAzure(s: Serializers, azure: Option<AzureKeyConfig>): AzureColumns {
    match azure
    case None => AzureColumns(None, None, None)
    case Some(a) =>
      AzureColumns(
        NullIfEmpty(a.endpoint),
        a.apiVersion,
        if a.deployments.Some? then Some(s.jsonMap.marshal(a.deployments)) else None)
  }

  function SaveVertex(vertex: Option<VertexKeyConfig>): VertexColumns {
    match vertex
    case None => VertexColumns(None, None, None)
    case Some(v) => VertexColumns(NullIfEmpty(v.projectId), NullIfEmpty(v.region), NullIfEmpty(v.authCredentials))
  }

  function SaveBedrock(s: Serializers, bedrock: Option<BedrockKeyConfig>): BedrockColumns {
    match bedrock
    case None => BedrockColumns(None, None, None, None, None, None)
    case Some(b) =>
      BedrockColumns(
        NullIfEmpty(b.accessKey),
        NullIfEmpty(b.secretKey),
        b.sessionToken,
        b.region,
        b.arn,
        if b.deployments.Some? then Some(s.sonicMap.marshal(b.deployments)) else None)
  }

  function SaveApertus(apertus: Option<ApertusKeyConfig>): Option<string> {
    if apertus.Some? then NullIfEmpty(apertus.value.endpoint) else None
  }

  /** BeforeSave: the columns written for given virtual fields. No column of a group is set
      when its config is absent, and an empty string field is written as NULL, never as "". */
  function Save(s: Serializers, v: KeyConfigs): (cols: KeyColumns)
    ensures v.azure.None? ==> cols.azure == AzureColumns(None, None, None)
    ensures v.vertex.None? ==> cols.vertex == VertexColumns(None, None, None)
    ensures v.bedrock.None? ==> cols.bedrock == BedrockColumns(None, None, None, None, None, None)
    ensures v.apertus.None? ==> cols.apertusEndpoint.None?
    ensures cols.azure.endpoint != Some("") && cols.apertusEndpoint != Some("")
    ensures cols.vertex.projectId != Some("") && cols.vertex.region != Some("") && cols.vertex.authCredentials != Some("")
    ensures cols.bedrock.accessKey != Some("") && cols.bedrock.secretKey != Some("")
  {
    KeyColumns(
      EncodeList(s.stringList, v.models),
      SaveAzure(s, v.azure),
      SaveVertex(v.vertex),
      SaveBedrock(s, v.bedrock),
      SaveApertus(v.apertus))
  }

  // ---------------------------------------------------------------------------------------
  // AfterFind, group by group; a group that is not rebuilt keeps the prior virtual field

  function FindAzure(s: Serializers, cols: AzureColumns, prior: Option<AzureKeyConfig>): Result<Option<AzureKeyConfig>, JsonError> {
    if cols.endpoint.None? then Ok(prior)
    else if cols.deploymentsJson.Some? then
      match s.jsonMap.unmarshal(cols.deploymentsJson.value)
      case Err(e) => Err(e)
      case Ok(deployments) => Ok(Some(AzureKeyConfig(cols.endpoint.value, deployments, cols.apiVersion)))
    else
      Ok(Some(AzureKeyConfig(cols.endpoint.value, None, cols.apiVersion)))
  }

  predicate VertexStored(cols: VertexColumns) {
    cols.projectId.Some? || cols.region.Some? || cols.authCredentials.Some?
  }

  function FindVertex(cols: VertexColumns, prior: Option<VertexKeyConfig>): Option<VertexKeyConfig> {
    if VertexStored(cols) then
      Some(VertexKeyConfig(EmptyIfNull(cols.projectId), EmptyIfNull(cols.region), EmptyIfNull(cols.authCredentials)))
    else
      prior
  }

  /** The Bedrock group counts as stored when a column is non-NULL, except that a
      deployments column counts only when it is also non-empty. */
  predicate BedrockStored(cols: BedrockColumns) {
    || cols.accessKey.Some? || cols.secretKey.Some?
    || cols.sessionToken.Some? || cols.region.Some? || cols.arn.Some?
    || (cols.deploymentsJson.Some? && cols.deploymentsJson.value != "")
  }

  function FindBedrock(s: Serializers, cols: BedrockColumns, prior: Option<BedrockKeyConfig>): Result<Option<BedrockKeyConfig>, JsonError> {
    if !BedrockStored(cols) then Ok(prior)
    else if cols.deploymentsJson.Some? then
      match s.jsonMap.unmarshal(cols.deploymentsJson.value)
      case Err(e) => Err(e)
      case Ok(deployments) =>
        Ok(Some(BedrockKeyConfig(EmptyIfNull(cols.accessKey), EmptyIfNull(cols.secretKey),
          cols.sessionToken, cols.region, cols.arn, deployments)))
    else
      Ok(Some(BedrockKeyConfig(EmptyIfNull(cols.accessKey), EmptyIfNull(cols.secretKey),
        cols.sessionToken, cols.region, cols.arn, None)))
  }

  function FindApertus(endpoint: Option<string>, prior: Option<ApertusKeyConfig>): Option<ApertusKeyConfig> {
    if endpoint.Some? then Some(ApertusKeyConfig(endpoint.value)) else prior
  }

  /** AfterFind: the models, then Azure, Vertex, Bedrock and Apertus; the first decoding
      error stops it, leaving the fields already rebuilt as they are and the rest as before. */
  function Find(s: Serializers, cols: KeyColumns, prior: KeyConfigs): (r: Loaded)
    ensures cols.modelsJson == "" ==> r.configs.models == prior.models
    ensures cols.azure.endpoint.None? ==> r.configs.azure == prior.azure
    ensures !VertexStored(cols.vertex) ==> r.configs.vertex == prior.vertex
    ensures !BedrockStored(cols.bedrock) ==> r.configs.bedrock == prior.bedrock
    ensures cols.apertusEndpoint.None? ==> r.configs.apertus == prior.apertus
    ensures r.err.None? && cols.modelsJson != "" ==> s.stringList.unmarshal(cols.modelsJson) == Ok(r.configs.models)
    ensures r.err.None? && cols.azure.endpoint.Some? ==>
      && r.configs.azure.Some?
      && r.configs.azure.value.endpoint == cols.azure.endpoint.value
      && r.configs.azure.value.apiVersion == cols.azure.apiVersion
      && (cols.azure.deploymentsJson.None? ==> r.configs.azure.value.deployments.None?)
      && (cols.azure.deploymentsJson.Some? ==>
            s.jsonMap.unmarshal(cols.azure.deploymentsJson.value) == Ok(r.configs.azure.value.deployments))
    ensures r.err.None? && VertexStored(cols.vertex) ==>
      r.configs.vertex == Some(VertexKeyConfig(
        EmptyIfNull(cols.vertex.projectId), EmptyIfNull(cols.vertex.region), EmptyIfNull(cols.vertex.authCredentials)))
    ensures r.err.None? && BedrockStored(cols.bedrock) ==>
      && r.configs.bedrock.Some?
      && r.configs.bedrock.value.accessKey == EmptyIfNull(cols.bedrock.accessKey)
      && r.configs.bedrock.value.secretKey == EmptyIfNull(cols.bedrock.secretKey)
      && r.configs.bedrock.value.sessionToken == cols.bedrock.sessionToken
      && r.configs.bedrock.value.region == cols.bedrock.region
      && r.configs.bedrock.value.arn == cols.bedrock.arn
      && (cols.bedrock.deploymentsJson.None? ==> r.configs.bedrock.value.deployments.None?)
      && (cols.bedrock.deploymentsJson.Some? ==>
            s.jsonMap.unmarshal(cols.bedrock.deploymentsJson.value) == Ok(r.configs.bedrock.value.deployments))
    ensures r.err.None? && cols.apertusEndpoint.Some? ==> r.configs.apertus == Some(ApertusKeyConfig(cols.apertusEndpoint.value))
  {
    match DecodeList(s.stringList, cols.modelsJson, prior.models)
    case Err(e) => Loaded(prior, Some(e))
    case Ok(models) =>
      var withModels := prior.(models := models);
      match FindAzure(s, cols.azure, prior.azure)
      case Err(e) => Loaded(withModels, Some(e))
      case Ok(azure) =>
        var withVertex := withModels.(azure := azure, vertex := FindVertex(cols.vertex, prior.vertex));
        match FindBedrock(s, cols.bedrock, prior.bedrock)
        case Err(e) => Loaded(withVertex, Some(e))
        case Ok(bedrock) => Loaded(withVertex.(bedrock := bedrock, apertus := FindApertus(cols.apertusEndpoint, prior.apertus)), None)
  }

  // ---------------------------------------------------------------------------------------
  // What survives a write and a read

  /** A Bedrock config none of whose fields is stored. */
  predicate BedrockBlank(b: BedrockKeyConfig) {
    b == BedrockKeyConfig("", "", None, None, None, None)
  }

  /** The virtual fields a fresh read gives back for what was written: a nil model list
      comes back empty; an Azure or Apertus config without endpoint, and a Vertex or Bedrock
      config with nothing stored, come back absent; everything else comes back equal. */
  function Normalized(v: KeyConfigs): KeyConfigs {
    KeyConfigs(
      Some(Restored(v.models)),
      if v.azure.Some? && v.azure.value.endpoint != "" then v.azure else None,
      if v.vertex.Some? && v.vertex.value != VertexKeyConfig("", "", "") then v.vertex else None,
      if v.bedrock.Some? && !BedrockBlank(v.bedrock.value) then v.bedrock else None,
      if v.apertus.Some? && v.apertus.value.endpoint != "" then v.apertus else None)
  }

  /** An Azure config with an endpoint is rebuilt equal, whatever the field held before. */
  lemma AzureRoundTrip(s: Serializers, a: AzureKeyConfig, prior: Option<AzureKeyConfig>)
    requires Lawful(s) && a.endpoint != ""
    ensures FindAzure(s, SaveAzure(s, Some(a)), prior) == Ok(Some(a))
  {
    if a.deployments.Some? {
      assert s.jsonMap.unmarshal(s.jsonMap.marshal(a.deployments)) == Ok(a.deployments);
    }
  }

  /** An Azure config with an empty endpoint is not rebuilt: its API version and deployments,
      although written, are not read back, and the field keeps what it held. */
  lemma AzureWithoutEndpointIsNotRebuilt(s: Serializers, a: AzureKeyConfig, prior: Option<AzureKeyConfig>)
    requires a.endpoint == ""
    ensures FindAzure(s, SaveAzure(s, Some(a)), prior) == Ok(prior)
    ensures a.apiVersion.Some? ==> SaveAzure(s, Some(a)).apiVersion == a.apiVersion
  {
  }

  /** A Vertex config is rebuilt equal unless all its fields are empty, and then it is not
      rebuilt; an absent one is not rebuilt either. */
  lemma VertexRoundTrip(vertex: Option<VertexKeyConfig>, prior: Option<VertexKeyConfig>)
    ensures vertex.Some? && vertex.value != VertexKeyConfig("", "", "") ==> FindVertex(SaveVertex(vertex), prior) == vertex
    ensures (vertex.None? || vertex.value == VertexKeyConfig("", "", "")) ==> FindVertex(SaveVertex(vertex), prior) == prior
  {
  }

  /** A Bedrock config is rebuilt equal unless nothing of it is stored, and then it is not
      rebuilt; the deployments written by `sonic` are read back by `encoding/json`. */
  lemma BedrockRoundTrip(s: Serializers, bedrock: Option<BedrockKeyConfig>, prior: Option<BedrockKeyConfig>)
    requires Lawful(s)
    ensures bedrock.Some? && !BedrockBlank(bedrock.value) ==> FindBedrock(s, SaveBedrock(s, bedrock), prior) == Ok(bedrock)
    ensures (bedrock.None? || BedrockBlank(bedrock.value)) ==> FindBedrock(s, SaveBedrock(s, bedrock), prior) == Ok(prior)
  {
    if bedrock.Some? && bedrock.value.deployments.Some? {
      var d := bedrock.value.deployments;
      assert s.jsonMap.unmarshal(s.sonicMap.marshal(d)) == Ok(d) && s.sonicMap.marshal(d) != "";
    }
  }

  /** An Apertus config with an endpoint is rebuilt equal; one without, or none, is not
      rebuilt. */
  lemma ApertusRoundTrip(apertus: Option<ApertusKeyConfig>, prior: Option<ApertusKeyConfig>)
    ensures apertus.Some? && apertus.value.endpoint != "" ==> FindApertus(SaveApertus(apertus), prior) == apertus
    ensures (apertus.None? || apertus.value.endpoint == "") ==> FindApertus(SaveApertus(apertus), prior) == prior
  {
  }

  /** Writing a row and reading it back fresh gives its normalised virtual fields, without
      error. */
  lemma KeyRoundTrip(s: Serializers, v: KeyConfigs)
    requires Lawful(s)
    ensures Find(s, Save(s, v), Unloaded) == Loaded(Normalized(v), None)
  {
    var cols := Save(s, v);
    ListRoundTrip(s.stringList, v.models, None);
    if v.azure.Some? && v.azure.value.endpoint != "" {
      AzureRoundTrip(s, v.azure.value, None);
    } else if v.azure.Some? {
      AzureWithoutEndpointIsNotRebuilt(s, v.azure.value, None);
    }
    VertexRoundTrip(v.vertex, None);
    BedrockRoundTrip(s, v.bedrock, None);
    ApertusRoundTrip(v.apertus, None);
  }

  /** Running both hooks on the same row in memory loses nothing: the groups that are not
      rebuilt keep their own values, and only a nil model list becomes empty. */
  lemma SameRowRoundTrip(s: Serializers, v: KeyConfigs)
    requires Lawful(s)
    ensures Find(s, Save(s, v), v) == Loaded(v.(models := Some(Restored(v.models))), None)
  {
    ListRoundTrip(s.stringList, v.models, v.models);
    if v.azure.Some? && v.azure.value.endpoint != "" {
      AzureRoundTrip(s, v.azure.value, v.azure);
    } else if v.azure.Some? {
      AzureWithoutEndpointIsNotRebuilt(s, v.azure.value, v.azure);
    }
    VertexRoundTrip(v.vertex, v.vertex);
    BedrockRoundTrip(s, v.bedrock, v.bedrock);
    ApertusRoundTrip(v.apertus, v.apertus);
  }

  /** AfterFind fails exactly when the model list, the deployments of a rebuilt Azure group,
      or the deployments of a rebuilt Bedrock group do not decode, the first of these in
      that order giving the error. */
  lemma FindFailsIff(s: Serializers, cols: KeyColumns, prior: KeyConfigs)
    ensures var modelsFail := cols.modelsJson != "" && s.stringList.unmarshal(cols.modelsJson).Err?;
      var azureFails := cols.azure.endpoint.Some? && cols.azure.deploymentsJson.Some?
        && s.jsonMap.unmarshal(cols.azure.deploymentsJson.value).Err?;
      var bedrockFails := BedrockStored(cols.bedrock) && cols.bedrock.deploymentsJson.Some?
        && s.jsonMap.unmarshal(cols.bedrock.deploymentsJson.value).Err?;
      var r := Find(s, cols, prior);
      && (r.err.Some? <==> modelsFail || azureFails || bedrockFails)
      && (modelsFail ==> r == Loaded(prior, Some(s.stringList.unmarshal(cols.modelsJson).error)))
      && (!modelsFail && azureFails ==> r.err == Some(s.jsonMap.unmarshal(cols.azure.deploymentsJson.value).error))
      && (!modelsFail && !azureFails && bedrockFails ==> r.err == Some(s.jsonMap.unmarshal(cols.bedrock.deploymentsJson.value).error))
  {
  }

  // ---------------------------------------------------------------------------------------
  // The row object and its hooks

  class TableKey {
    var modelsJson: string
    var azureEndpoint: Option<string>
    var azureApiVersion: Option<string>
    var azureDeploymentsJson: Option<string>
    var vertexProjectId: Option<string>
    var vertexRegion: Option<string>
    var vertexAuthCredentials: Option<string>
    var bedrockAccessKey: Option<string>
    var bedrockSecretKey: Option<string>
    var bedrockSessionToken: Option<string>
    var bedrockRegion: Option<string>
    var bedrockArn: Option<string>
    var bedrockDeploymentsJson: Option<string>
    var apertusEndpoint: Option<string>

    var models: Option<seq<string>>
    var azureKeyConfig: Option<AzureKeyConfig>
    var vertexKeyConfig: Option<VertexKeyConfig>
    var bedrockKeyConfig: Option<BedrockKeyConfig>
    var apertusKeyConfig: Option<ApertusKeyConfig>

    /** The stored columns of this row. */
    function Columns(): KeyColumns
      reads this
    {
      KeyColumns(
        modelsJson,
        AzureColumns(azureEndpoint, azureApiVersion, azureDeploymentsJson),
        VertexColumns(vertexProjectId, vertexRegion, vertexAuthCredentials),
        BedrockColumns(bedrockAccessKey, bedrockSecretKey, bedrockSessionToken, bedrockRegion, bedrockArn, bedrockDeploymentsJson),
        apertusEndpoint)
    }

    /** The virtual fields of this row. */
    function Configs(): KeyConfigs
      reads this
    {
      KeyConfigs(models, azureKeyConfig, vertexKeyConfig, bedrockKeyConfig, apertusKeyConfig)
    }

    /** A row as the database hands it over: columns set, virtual fields nil. */
    constructor FromRow(cols: KeyColumns)
      ensures Columns() == cols && Configs() == Unloaded
    {
      modelsJson := cols.modelsJson;
      azureEndpoint, azureApiVersion, azureDeploymentsJson := cols.azure.endpoint, cols.azure.apiVersion, cols.azure.deploymentsJson;
      vertexProjectId, vertexRegion, vertexAuthCredentials := cols.vertex.projectId, cols.vertex.region, cols.vertex.authCredentials;
      bedrockAccessKey, bedrockSecretKey := cols.bedrock.accessKey, cols.bedrock.secretKey;
      bedrockSessionToken, bedrockRegion, bedrockArn := cols.bedrock.sessionToken, cols.bedrock.region, cols.bedrock.arn;
      bedrockDeploymentsJson := cols.bedrock.deploymentsJson;
      apertusEndpoint := cols.apertusEndpoint;
      models, azureKeyConfig, vertexKeyConfig, bedrockKeyConfig, apertusKeyConfig := None, None, None, None, None;
    }

    /** A row as the application builds it: virtual fields set, columns zero. */
    constructor FromConfigs(v: KeyConfigs)
      ensures Configs() == v
      ensures Columns() == KeyColumns("", AzureColumns(None, None, None), VertexColumns(None, None, None),
        BedrockColumns(None, None, None, None, None, None), None)
    {
      modelsJson := "";
      azureEndpoint, azureApiVersion, azureDeploymentsJson := None, None, None;
      vertexProjectId, vertexRegion, vertexAuthCredentials := None, None, None;
      bedrockAccessKey, bedrockSecretKey, bedrockSessionToken, bedrockRegion, bedrockArn, bedrockDeploymentsJson := None, None, None, None, None, None;
      apertusEndpoint := None;
      models, azureKeyConfig, vertexKeyConfig, bedrockKeyConfig, apertusKeyConfig := v.models, v.azure, v.vertex, v.bedrock, v.apertus;
    }

    /** BeforeSave: writes every column from the virtual fields, which it leaves as they are. */
    method BeforeSave(s: Serializers)
      modifies this
      ensures Columns() == Save(s, old(Configs()))
      ensures Configs() == old(Configs())
    {
      SaveModelsColumn(s);
      SaveAzureColumns(s);
      SaveVertexColumns();
      SaveBedrockColumns(s);
      SaveApertusColumn();
    }

    method SaveModelsColumn(s: Serializers)
      modifies this
      ensures Columns() == old(Columns()).(modelsJson := EncodeList(s.stringList, old(models)))
      ensures Configs() == old(Configs())
    {
      if models.Some? {
        modelsJson := s.stringList.marshal(models);
      } else {
        modelsJson := "[]";
      }
    }

    method SaveAzureColumns(s: Serializers)
      modifies this
      ensures Columns() == old(Columns()).(azure := SaveAzure(s, old(azureKeyConfig)))
      ensures Configs() == old(Configs())
    {
      if azureKeyConfig.Some? {
        if azureKeyConfig.value.endpoint != "" {
          azureEndpoint := Some(azureKeyConfig.value.endpoint);
        } else {
          azureEndpoint := None;
        }
        azureApiVersion := azureKeyConfig.value.apiVersion;
        if azureKeyConfig.value.deployments.Some? {
          azureDeploymentsJson := Some(s.jsonMap.marshal(azureKeyConfig.value.deployments));
        } else {
          azureDeploymentsJson := None;
        }
      } else {
        azureEndpoint, azureApiVersion, azureDeploymentsJson := None, None, None;
      }
    }

    method SaveVertexColumns()
      modifies this
      ensures Columns() == old(Columns()).(vertex := SaveVertex(old(vertexKeyConfig)))
      ensures Configs() == old(Configs())
    {
      if vertexKeyConfig.Some? {
        var vertex := vertexKeyConfig.value;
        vertexProjectId := if vertex.projectId != "" then Some(vertex.projectId) else None;
        vertexRegion := if vertex.region != "" then Some(vertex.region) else None;
        vertexAuthCredentials := if vertex.authCredentials != "" then Some(vertex.authCredentials) else None;
      } else {
        vertexProjectId, vertexRegion, vertexAuthCredentials := None, None, None;
      }
    }

    method SaveBedrockColumns(s: Serializers)
      modifies this
      ensures Columns() == old(Columns()).(bedrock := SaveBedrock(s, old(bedrockKeyConfig)))
      ensures Configs() == old(Configs())
    {
      if bedrockKeyConfig.Some? {
        var bedrock := bedrockKeyConfig.value;
        bedrockAccessKey := if bedrock.accessKey != "" then Some(bedrock.accessKey) else None;
        bedrockSecretKey := if bedrock.secretKey != "" then Some(bedrock.secretKey) else None;
        bedrockSessionToken := bedrock.sessionToken;
        bedrockRegion := bedrock.region;
        bedrockArn := bedrock.arn;
        if bedrock.deployments.Some? {
          bedrockDeploymentsJson := Some(s.sonicMap.marshal(bedrock.deployments));
        } else {
          bedrockDeploymentsJson := None;
        }
      } else {
        bedrockAccessKey, bedrockSecretKey, bedrockSessionToken, bedrockRegion, bedrockArn, bedrockDeploymentsJson := None, None, None, None, None, None;
      }
    }

    method SaveApertusColumn()
      modifies this
      ensures Columns() == old(Columns()).(apertusEndpoint := SaveApertus(old(apertusKeyConfig)))
      ensures Configs() == old(Configs())
    {
      if apertusKeyConfig.Some? {
        if apertusKeyConfig.value.endpoint != "" {
          apertusEndpoint := Some(apertusKeyConfig.value.endpoint);
        } else {
          apertusEndpoint := None;
        }
      } else {
        apertusEndpoint := None;
      }
    }

    /** AfterFind: rebuilds the virtual fields from the columns, which it leaves as they are,
        stopping at the first decoding error. */
    method AfterFind(s: Serializers) returns (err: Option<JsonError>)
      modifies this
      ensures Loaded(Configs(), err) == Find(s, old(Columns()), old(Configs()))
      ensures Columns() == old(Columns())
    {
      err := LoadModels(s);
      if err.Some? {
        return;
      }
      err := LoadAzure(s);
      if err.Some? {
        return;
      }
      LoadVertex();
      err := LoadBedrock(s);
      if err.Some? {
        return;
      }
      LoadApertus();
    }

    method LoadModels(s: Serializers) returns (err: Option<JsonError>)
      modifies this
      ensures Columns() == old(Columns())
      ensures match DecodeList(s.stringList, modelsJson, old(models))
        case Err(e) => err == Some(e) && Configs() == old(Configs())
        case Ok(m) => err.None? && Configs() == old(Configs()).(models := m)
    {
      if modelsJson != "" {
        var decoded := s.stringList.unmarshal(modelsJson);
        if decoded.Err? {
          return Some(decoded.error);
        }
        models := decoded.value;
      }
      return None;
    }

    method LoadAzure(s: Serializers) returns (err: Option<JsonError>)
      modifies this
      ensures Columns() == old(Columns())
      ensures match FindAzure(s, Columns().azure, old(azureKeyConfig))
        case Err(e) => err == Some(e) && Configs() == old(Configs())
        case Ok(a) => err.None? && Configs() == old(Configs()).(azure := a)
    {
      if azureEndpoint.Some? {
        var azure := AzureKeyConfig(azureEndpoint.value, None, azureApiVersion);
        if azureDeploymentsJson.Some? {
          var deployments := s.jsonMap.unmarshal(azureDeploymentsJson.value);
          if deployments.Err? {
            return Some(deployments.error);
          }
          azure := azure.(deployments := deployments.value);
        }
        azureKeyConfig := Some(azure);
      }
      return None;
    }

    method LoadVertex()
      modifies this
      ensures Columns() == old(Columns())
      ensures Configs() == old(Configs()).(vertex := FindVertex(Columns().vertex, old(vertexKeyConfig)))
    {
      if vertexProjectId.Some? || vertexRegion.Some? || vertexAuthCredentials.Some? {
        var vertex := VertexKeyConfig("", "", "");
        if vertexProjectId.Some? {
          vertex := vertex.(projectId := vertexProjectId.value);
        }
        if vertexRegion.Some? {
          vertex := vertex.(region := vertexRegion.value);
        }
        if vertexAuthCredentials.Some? {
          vertex := vertex.(authCredentials := vertexAuthCredentials.value);
        }
        vertexKeyConfig := Some(vertex);
      }
    }

    method LoadBedrock(s: Serializers) returns (err: Option<JsonError>)
      modifies this
      ensures Columns() == old(Columns())
      ensures match FindBedrock(s, Columns().bedrock, old(bedrockKeyConfig))
        case Err(e) => err == Some(e) && Configs() == old(Configs())
        case Ok(b) => err.None? && Configs() == old(Configs()).(bedrock := b)
    {
      if || bedrockAccessKey.Some? || bedrockSecretKey.Some? || bedrockSessionToken.Some?
         || bedrockRegion.Some? || bedrockArn.Some?
         || (bedrockDeploymentsJson.Some? && bedrockDeploymentsJson.value != "")
      {
        var bedrock := BedrockKeyConfig("", "", None, None, None, None);
        if bedrockAccessKey.Some? {
          bedrock := bedrock.(accessKey := bedrockAccessKey.value);
        }
        bedrock := bedrock.(sessionToken := bedrockSessionToken, region := bedrockRegion, arn := bedrockArn);
        if bedrockSecretKey.Some? {
          bedrock := bedrock.(secretKey := bedrockSecretKey.value);
        }
        if bedrockDeploymentsJson.Some? {
          var deployments := s.jsonMap.unmarshal(bedrockDeploymentsJson.value);
          if deployments.Err? {
            return Some(deployments.error);
          }
          bedrock := bedrock.(deployments := deployments.value);
        }
        bedrockKeyConfig := Some(bedrock);
      }
      return None;
    }

    method LoadApertus()
      modifies this
      ensures Columns() == old(Columns())
      ensures Configs() == old(Configs()).(apertus := FindApertus(Columns().apertusEndpoint, old(apertusKeyConfig)))
    {
      if apertusEndpoint.Some? {
        apertusKeyConfig := Some(ApertusKeyConfig(apertusEndpoint.value));
      }
    }
  }

  /** A key written by BeforeSave and read back into a fresh row by AfterFind comes back
      normalised, without error. */
  method SaveAndReload(s: Serializers, v: KeyConfigs) returns (loaded: KeyConfigs, err: Option<JsonError>)
    requires Lawful(s)
    ensures err.None? && loaded == Normalized(v)
  {
    var written := new TableKey.FromConfigs(v);
    written.BeforeSave(s);
    var read := new TableKey.FromRow(written.Columns());
    err := read.AfterFind(s);
    loaded := read.Configs();
    KeyRoundTrip(s, v);
  }
}
