/**
 * The order in which the core writes to the two stores. Both stores append every
 * write they perform to one shared journal, so a caller's contract can state the
 * order of writes across the two stores.
 */
module Trace {

  datatype Write =
    | FieldWrite(key: string, field: string)                 // HSET key field value
    | FieldTtl(key: string, field: string, seconds: int)     // HEXPIRE key seconds FIELDS field
    | KeyWrite(key: string, seconds: int)                    // SET key value EX seconds

  class Journal {
    ghost var writes: seq<Write>

    constructor ()
      ensures writes == []
    {
      writes := [];
    }
  }
}
