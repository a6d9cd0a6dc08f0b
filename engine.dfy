/** internal/database/storage/engine/in_memory/engine.go: the in-memory
    engine, which forwards each call to the table it built at construction. */
module InMemoryEngine {
  import opened Common
  import opened InMemoryTable

  const TABLE_BUILDER_INVALID: string := "hash table builder is invalid"

  class Engine {
    const logger: Logger
    const table: HashTable

    constructor (table: HashTable, logger: Logger)
      ensures this.table == table && this.logger == logger
    {
      this.table := table;
      this.logger := logger;
    }

    /** The key-value state the engine exposes: its table's map. */
    ghost function Contents(): map<string, string>
      reads table
    {
      table.data
    }

    method Set(key: string, value: string)
      modifies table
      ensures Contents() == Put(old(Contents()), key, value)
    {
      table.Set(key, value);
    }

    /** Returns exactly the table's `(value, found)`. */
    method Get(key: string) returns (value: string, found: bool)
      ensures (value, found) == Lookup(Contents(), key)
    {
      value, found := table.Get(key);
    }

    method Del(key: string)
      modifies table
      ensures Contents() == Remove(old(Contents()), key)
    {
      table.Del(key);
    }
  }

  /** `NewEngine`: refuses a nil builder, then a nil logger; otherwise the
      engine owns a freshly built, empty table. */
  method NewEngine(tableBuilder: Option<TableBuilder>, logger: Option<Logger>)
    returns (e: Engine?, err: Option<Error>)
    ensures err == if tableBuilder.None? then Some(Invalid(TABLE_BUILDER_INVALID))
                   else if logger.None? then Some(Invalid(LOGGER_INVALID))
                   else None
    ensures e == null <==> err.Some?
    ensures e != null ==> fresh(e) && fresh(e.table) && e.Contents() == map[] && e.logger == logger.value
  {
    if tableBuilder.None? {
      return null, Some(Invalid(TABLE_BUILDER_INVALID));
    }
    if logger.None? {
      return null, Some(Invalid(LOGGER_INVALID));
    }
    var table := Build(tableBuilder.value);
    e := new Engine(table, logger.value);
    err := None;
  }
}
