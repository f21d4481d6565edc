/** The `config_client` table row: the global client configuration, whose Prometheus labels
    and allowed origins are string lists stored as JSON text columns. */
module TablesClientConfig {
  import opened Wrappers
  import opened Json
  import opened ListColumn

  /** The stored JSON columns. */
  datatype ClientColumns = ClientColumns(prometheusLabelsJson: string, allowedOriginsJson: string)

  /** The virtual (not stored) lists; a nil slice is `None`. */
  datatype ClientLists = ClientLists(prometheusLabels: Option<seq<string>>, allowedOrigins: Option<seq<string>>)

  /** The outcome of AfterFind: the lists it leaves, and the error it returns. */
  datatype Loaded = Loaded(lists: ClientLists, err: Option<JsonError>)

  /** BeforeSave: both columns are always written. */
  function Save(codec: Codec<Option<seq<string>>>, v: ClientLists): (cols: ClientColumns)
    ensures LawfulList(codec) ==> cols.prometheusLabelsJson != "" && cols.allowedOriginsJson != ""
  {
    ClientColumns(EncodeList(codec, v.prometheusLabels), EncodeList(codec, v.allowedOrigins))
  }

  /** AfterFind: the labels, then the origins; an error in the labels leaves both lists as
      they were, one in the origins leaves the labels decoded. */
  function Find(codec: Codec<Option<seq<string>>>, cols: ClientColumns, prior: ClientLists): (r: Loaded)
    ensures cols.prometheusLabelsJson == "" ==> r.lists.prometheusLabels == prior.prometheusLabels
    ensures cols.allowedOriginsJson == "" ==> r.lists.allowedOrigins == prior.allowedOrigins
    ensures r.err.None? && cols.prometheusLabelsJson != "" ==> codec.unmarshal(cols.prometheusLabelsJson) == Ok(r.lists.prometheusLabels)
    ensures r.err.None? && cols.allowedOriginsJson != "" ==> codec.unmarshal(cols.allowedOriginsJson) == Ok(r.lists.allowedOrigins)
    ensures cols.prometheusLabelsJson != "" && codec.unmarshal(cols.prometheusLabelsJson).Err? ==>
      r == Loaded(prior, Some(codec.unmarshal(cols.prometheusLabelsJson).error))
  {
    match DecodeList(codec, cols.prometheusLabelsJson, prior.prometheusLabels)
    case Err(e) => Loaded(prior, Some(e))
    case Ok(labels) =>
      match DecodeList(codec, cols.allowedOriginsJson, prior.allowedOrigins)
      case Err(e) => Loaded(prior.(prometheusLabels := labels), Some(e))
      case Ok(origins) => Loaded(ClientLists(labels, origins), None)
  }

  /** Writing the lists and reading them back gives both lists in order, a nil list back as
      the empty list, whatever the row held before the read. */
  lemma ClientConfigRoundTrip(codec: Codec<Option<seq<string>>>, v: ClientLists, prior: ClientLists)
    requires LawfulList(codec)
    ensures Find(codec, Save(codec, v), prior)
      == Loaded(ClientLists(Some(Restored(v.prometheusLabels)), Some(Restored(v.allowedOrigins))), None)
  {
    ListRoundTrip(codec, v.prometheusLabels, prior.prometheusLabels);
    ListRoundTrip(codec, v.allowedOrigins, prior.allowedOrigins);
  }

  /** AfterFind fails exactly when a non-empty column does not decode. */
  lemma FindFailsIff(codec: Codec<Option<seq<string>>>, cols: ClientColumns, prior: ClientLists)
    ensures Find(codec, cols, prior).err.Some? <==>
      || (cols.prometheusLabelsJson != "" && codec.unmarshal(cols.prometheusLabelsJson).Err?)
      || (cols.allowedOriginsJson != "" && codec.unmarshal(cols.allowedOriginsJson).Err?)
  {
  }

  class TableClientConfig {
    var prometheusLabelsJson: string
    var allowedOriginsJson: string
    var prometheusLabels: Option<seq<string>>
    var allowedOrigins: Option<seq<string>>

    function Columns(): ClientColumns
      reads this
    {
      ClientColumns(prometheusLabelsJson, allowedOriginsJson)
    }

    function Lists(): ClientLists
      reads this
    {
      ClientLists(prometheusLabels, allowedOrigins)
    }

    /** A row as the database hands it over: columns set, lists nil. */
    constructor FromRow(cols: ClientColumns)
      ensures Columns() == cols && Lists() == ClientLists(None, None)
    {
      prometheusLabelsJson, allowedOriginsJson := cols.prometheusLabelsJson, cols.allowedOriginsJson;
      prometheusLabels, allowedOrigins := None, None;
    }

    /** A row as the application builds it: lists set, columns empty. */
    constructor FromLists(v: ClientLists)
      ensures Columns() == ClientColumns("", "") && Lists() == v
    {
      prometheusLabelsJson, allowedOriginsJson := "", "";
      prometheusLabels, allowedOrigins := v.prometheusLabels, v.allowedOrigins;
    }

    /** BeforeSave: writes both columns from the lists, which it leaves as they are. */
    method BeforeSave(codec: Codec<Option<seq<string>>>)
      modifies this
      ensures Columns() == Save(codec, old(Lists()))
      ensures Lists() == old(Lists())
    {
      if prometheusLabels.Some? {
        prometheusLabelsJson := codec.marshal(prometheusLabels);
      } else {
        prometheusLabelsJson := "[]";
      }
      if allowedOrigins.Some? {
        allowedOriginsJson := codec.marshal(allowedOrigins);
      } else {
        allowedOriginsJson := "[]";
      }
    }

    /** AfterFind: decodes each non-empty column into its list, stopping at the first error. */
    method AfterFind(codec: Codec<Option<seq<string>>>) returns (err: Option<JsonError>)
      modifies this
      ensures Loaded(Lists(), err) == Find(codec, old(Columns()), old(Lists()))
      ensures Columns() == old(Columns())
    {
      if prometheusLabelsJson != "" {
        var labels := codec.unmarshal(prometheusLabelsJson);
        if labels.Err? {
          return Some(labels.error);
        }
        prometheusLabels := labels.value;
      }
      if allowedOriginsJson != "" {
        var origins := codec.unmarshal(allowedOriginsJson);
        if origins.Err? {
          return Some(origins.error);
        }
        allowedOrigins := origins.value;
      }
      return None;
    }
  }

  /** A client configuration written by BeforeSave and read back into a fresh row by
      AfterFind: both lists come back, nil ones as empty lists. */
  method SaveAndReload(codec: Codec<Option<seq<string>>>, v: ClientLists) returns (loaded: ClientLists, err: Option<JsonError>)
    requires LawfulList(codec)
    ensures err.None?
    ensures loaded == ClientLists(Some(Restored(v.prometheusLabels)), Some(Restored(v.allowedOrigins)))
  {
    var written := new TableClientConfig.FromLists(v);
    written.BeforeSave(codec);
    var read := new TableClientConfig.FromRow(written.Columns());
    err := read.AfterFind(codec);
    loaded := read.Lists();
    ClientConfigRoundTrip(codec, v, ClientLists(None, None));
  }
}
