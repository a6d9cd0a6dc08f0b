/** internal/database/storage/storage.go: the storage layer, which checks
    the caller's context before every call and then forwards it to the
    engine it holds. */
module Storage {
  import opened Common
  import opened InMemoryTable
  import InMemoryEngine

  const ENGINE_INVALID: string := "engine is invalid"

  class Storage {
    const engine: InMemoryEngine.Engine
    const logger: Logger

    constructor (engine: InMemoryEngine.Engine, logger: Logger)
      ensures this.engine == engine && this.logger == logger
    {
      this.engine := engine;
      this.logger := logger;
    }

    /** A done context returns its error and leaves the engine as it was;
        otherwise the engine stores the pair and nil is returned. */
    method Set(ctx: Context, key: string, value: string) returns (err: Option<Error>)
      modifies engine.table
      ensures err == ctx.Err()
      ensures engine.Contents() == if ctx.Err().Some? then old(engine.Contents())
                                   else Put(old(engine.Contents()), key, value)
    {
      if ctx.Err().Some? {
        return ctx.Err();
      }
      engine.Set(key, value);
      return None;
    }

    /** A done context returns `""` and its error; otherwise the engine's
        value with the found flag dropped, so a missing key reads as `""`
        without an error. Nothing is modified. */
    method Get(ctx: Context, key: string) returns (value: string, err: Option<Error>)
      ensures err == ctx.Err()
      ensures ctx.Err().Some? ==> value == ""
      ensures ctx.Err().None? ==> value == Lookup(engine.Contents(), key).0
      ensures ctx.Err().None? && key !in engine.Contents() ==> value == ""
    {
      if ctx.Err().Some? {
        return "", ctx.Err();
      }
      var found;
      value, found := engine.Get(key);
      err := None;
    }

    /** A done context returns its error and leaves the engine as it was;
        otherwise the engine drops the key and nil is returned. */
    method Del(ctx: Context, key: string) returns (err: Option<Error>)
      modifies engine.table
      ensures err == ctx.Err()
      ensures engine.Contents() == if ctx.Err().Some? then old(engine.Contents())
                                   else Remove(old(engine.Contents()), key)
    {
      if ctx.Err().Some? {
        return ctx.Err();
      }
      engine.Del(key);
      return None;
    }
  }

  /** `NewStorage`: refuses a nil engine, then a nil logger. */
  method NewStorage(engine: InMemoryEngine.Engine?, logger: Option<Logger>)
    returns (s: Storage?, err: Option<Error>)
    ensures err == if engine == null then Some(Invalid(ENGINE_INVALID))
                   else if logger.None? then Some(Invalid(LOGGER_INVALID))
                   else None
    ensures s == null <==> err.Some?
    ensures s != null ==> fresh(s) && s.engine == engine && s.logger == logger.value
  {
    if engine == null {
      return null, Some(Invalid(ENGINE_INVALID));
    }
    if logger.None? {
      return null, Some(Invalid(LOGGER_INVALID));
    }
    s := new Storage(engine, logger.value);
    err := None;
  }

  /** Because `Get` drops the found flag, a key that holds the empty string
      reads exactly like a key that is absent. */
  lemma EmptyValueReadsAsAbsent(m: map<string, string>, key: string)
    ensures Lookup(Put(m, key, ""), key).0 == Lookup(Remove(m, key), key).0
    ensures Lookup(Put(m, key, ""), key).1 != Lookup(Remove(m, key), key).1
  {
  }

  /** A caller's view of the storage contract: set, read back, delete, read
      back, and a write under a cancelled context that changes nothing. */
  method RoundTrip(s: Storage, key: string, value: string)
    modifies s.engine.table
  {
    var err := s.Set(Active, key, value);
    var v;
    v, err := s.Get(Active, key);
    assert v == value && err.None?;
    err := s.Del(Active, key);
    v, err := s.Get(Active, key);
    assert v == "" && err.None?;
    ghost var before := s.engine.Contents();
    err := s.Set(Cancelled, key, value);
    assert err == Some(Canceled) && s.engine.Contents() == before;
  }
}
