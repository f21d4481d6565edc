/** The string-list columns of the configuration tables (a key's models, the client's
    Prometheus labels and allowed origins): a nil-able slice stored as a JSON text column. */
module ListColumn {
  import opened Wrappers
  import opened Json

  /** The list as it is read back after being stored: a nil slice comes back empty. */
  function Restored(list: Option<seq<string>>): seq<string> {
    if list.Some? then list.value else []
  }

  /** BeforeSave's step for one list: the JSON encoding of a non-nil slice, "[]" for nil. */
  function EncodeList(codec: Codec<Option<seq<string>>>, list: Option<seq<string>>): (json: string)
    ensures list.None? ==> json == "[]"
    ensures LawfulList(codec) ==> json != "" && json == codec.marshal(Some(Restored(list)))
  {
    if list.Some? then codec.marshal(list) else "[]"
  }

  /** AfterFind's step for one list: a non-empty column is decoded, whatever the slice held
      before; an empty column leaves the slice as it was. */
  function DecodeList(codec: Codec<Option<seq<string>>>, json: string, prior: Option<seq<string>>): (r: Result<Option<seq<string>>, JsonError>)
    ensures json == "" ==> r == Ok(prior)
    ensures json != "" ==> r == codec.unmarshal(json)
  {
    if json != "" then codec.unmarshal(json) else Ok(prior)
  }

  /** Storing a list and reading it back gives the list, in order, and a nil list back as
      the empty list, whatever the slice held before the read. */
  lemma ListRoundTrip(codec: Codec<Option<seq<string>>>, list: Option<seq<string>>, prior: Option<seq<string>>)
    requires LawfulList(codec)
    ensures DecodeList(codec, EncodeList(codec, list), prior) == Ok(Some(Restored(list)))
  {
  }
}
