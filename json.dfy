/** The JSON serialisers the table hooks call (`encoding/json`, and `sonic` for one column),
    taken as an abstract marshal/unmarshal pair. */
module Json {
  import opened Wrappers

  /** The error `json.Unmarshal` returns for text it cannot decode. */
  datatype JsonError = JsonError(message: string)

  /** A serialiser for values of type `T`: marshalling never fails for the types stored
      here (string slices, string maps, plain structs); unmarshalling may. */
  datatype Codec<!T> = Codec(marshal: T -> string, unmarshal: string -> Result<T, JsonError>)

  /** What the table hooks rely on when one serialiser writes a column and another reads
      it: decoding an encoding gives the value back, and an encoding is never the empty
      string (the hooks read "" as "not stored"). */
  ghost predicate Compatible<T(!new)>(writer: Codec<T>, reader: Codec<T>) {
    forall x :: reader.unmarshal(writer.marshal(x)) == Ok(x) && writer.marshal(x) != ""
  }

  /** A serialiser that reads back what it writes. */
  ghost predicate Lawful<T(!new)>(c: Codec<T>) {
    Compatible(c, c)
  }

  /** A serialiser of nil-able string slices as `encoding/json` behaves: a lawful codec that
      encodes the empty (non-nil) slice as "[]". */
  ghost predicate LawfulList(c: Codec<Option<seq<string>>>) {
    Lawful(c) && c.marshal(Some([])) == "[]"
  }
}
