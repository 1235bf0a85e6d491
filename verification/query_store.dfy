/**
 * The query register (query_store.py): one JSON file holding `{"query": ...}`.
 * The file is abstracted as a record: absent, unreadable, or a parsed object that
 * may or may not carry the "query" key.
 */
module QueryStore {
  import opened Text

  /** `get_default_query()`. */
  const DefaultQuery: string := "Find all messages that have words on it."

  /** What reading the file yields when it exists. */
  datatype Document =
    | Unreadable                      // open, read or parse raised, or the JSON is not an object
    | Parsed(query: Option<string>)   // a JSON object; `query` is its "query" entry, if any

  /** How an attempt to write the file ended. */
  datatype WriteOutcome =
    | Written       // the object was dumped completely
    | OpenFailed    // opening for writing raised; the old file is untouched
    | DumpFailed    // opening truncated the file, then the dump raised part-way

  /** `get_current_query` on a given file: the stored query, or the default, and never an error. */
  function ReadQuery(file: Option<Document>): (q: string)
    ensures q == DefaultQuery || file == Some(Parsed(Some(q)))
    ensures file.Some? && file.value.Parsed? && file.value.query.Some? ==> q == file.value.query.value
  {
    match file
    case None => DefaultQuery
    case Some(Unreadable) => DefaultQuery
    case Some(Parsed(entry)) =>
      match entry
      case Some(stored) => stored
      case None => DefaultQuery
  }

  /** The file after `set_current_query(query)` ended with `outcome`. */
  function AfterWrite(file: Option<Document>, query: string, outcome: WriteOutcome): Option<Document> {
    match outcome
    case Written => Some(Parsed(Some(query)))
    case OpenFailed => file
    case DumpFailed => Some(Unreadable)
  }

  class Store {
    /** The query file: `None` while it does not exist. */
    var file: Option<Document>

    constructor (file: Option<Document>)
      ensures this.file == file
    {
      this.file := file;
    }

    /** `get_current_query`. */
    method GetCurrentQuery() returns (q: string)
      ensures q == ReadQuery(file)
    {
      if file.None? {
        return DefaultQuery;
      }
      match file.value
      case Unreadable =>
        q := DefaultQuery;
      case Parsed(entry) =>
        q := if entry.Some? then entry.value else DefaultQuery;
    }

    /** `set_current_query`: true exactly when the write completed. */
    method SetCurrentQuery(query: string, outcome: WriteOutcome) returns (ok: bool)
      modifies this
      ensures ok <==> outcome == Written
      ensures file == AfterWrite(old(file), query, outcome)
    {
      match outcome
      case Written =>
        file := Some(Parsed(Some(query)));
        ok := true;
      case OpenFailed =>
        ok := false;
      case DumpFailed =>
        file := Some(Unreadable);
        ok := false;
    }
  }

  /** A successful write is read back exactly; a failed one reads back the old query or the default. */
  lemma WriteThenRead(file: Option<Document>, query: string, outcome: WriteOutcome)
    ensures outcome == Written ==> ReadQuery(AfterWrite(file, query, outcome)) == query
    ensures outcome == OpenFailed ==> ReadQuery(AfterWrite(file, query, outcome)) == ReadQuery(file)
    ensures outcome == DumpFailed ==> ReadQuery(AfterWrite(file, query, outcome)) == DefaultQuery
  {
  }

  /** `set_current_query(q)` followed by `get_current_query()` gives back `q`. */
  method SetThenGet(store: Store, query: string) returns (ok: bool, q: string)
    modifies store
    ensures ok && q == query
  {
    ok := store.SetCurrentQuery(query, Written);
    q := store.GetCurrentQuery();
    WriteThenRead(old(store.file), query, Written);
  }
}
