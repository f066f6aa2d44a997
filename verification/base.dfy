/** Small shared types: an optional value, and UUIDs kept as opaque canonical text. */
module Optionals {

  /** A value that may be absent; stands in for Go's nil pointers and nil nodes. */
  datatype Option<+T> = None | Some(value: T)
}

module Uuids {
  import opened Optionals

  /** A UUID in its canonical 36-character text form. Formatting (`String()`) is the identity here. */
  type Uuid = s: string | |s| == 36 witness "00000000-0000-0000-0000-000000000000"

  /** The zero UUID, `uuid.Nil`, which the handlers read as "no filter" / "not set". */
  const NilUuid: Uuid := "00000000-0000-0000-0000-000000000000"

  /** `uuid.NullUUID`: the UUID is kept even when `valid` is false. */
  datatype NullUuid = NullUuid(uuid: Uuid, valid: bool)

  /** Stand-in for the library parser on canonical text: a canonical string parses to itself,
      anything of another length is rejected. */
  function ParseUuid(s: string): (r: Option<Uuid>)
    ensures r.Some? <==> |s| == 36
    ensures r.Some? ==> r.value == s
  {
    if |s| == 36 then Some(s) else None
  }
}
