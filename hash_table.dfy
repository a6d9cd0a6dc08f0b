/** internal/database/storage/engine/in_memory/hash_table.go: the default
    table behind the in-memory engine, a Go `map[string]string` updated in
    place. The first part gives the map semantics the table's methods follow;
    the class holds the map. */
module InMemoryTable {

  /** `value, found := m[key]`: the zero value `""` and false when absent. */
  function Lookup(m: map<string, string>, key: string): (r: (string, bool))
    ensures r.1 <==> key in m
    ensures r.0 == if key in m then m[key] else ""
  {
    if key in m then (m[key], true) else ("", false)
  }

  /** `m[key] = value`: inserts or overwrites the key and nothing else. */
  function Put(m: map<string, string>, key: string, value: string): (r: map<string, string>)
    ensures Lookup(r, key) == (value, true)
    ensures r.Keys == m.Keys + {key}
    ensures forall k :: k != key ==> Lookup(r, k) == Lookup(m, k)
  {
    m[key := value]
  }

  /** `delete(m, key)`: removes the key if present and nothing else. */
  function Remove(m: map<string, string>, key: string): (r: map<string, string>)
    ensures Lookup(r, key) == ("", false)
    ensures r.Keys == m.Keys - {key}
    ensures forall k :: k != key ==> Lookup(r, k) == Lookup(m, k)
  {
    m - {key}
  }

  /** Deleting an absent key changes nothing, and deleting twice is deleting once. */
  lemma RemoveAbsentAndIdempotent(m: map<string, string>, key: string)
    ensures key !in m ==> Remove(m, key) == m
    ensures Remove(Remove(m, key), key) == Remove(m, key)
  {
  }

  /** One call of `Set` or `Del`, as recorded in a sequence of calls. */
  datatype Write = SetWrite(key: string, value: string) | DelWrite(key: string)

  function Apply(m: map<string, string>, w: Write): (m': map<string, string>)
  {
    match w
    case SetWrite(k, v) => Put(m, k, v)
    case DelWrite(k) => Remove(m, k)
  }

  /** The table reached from `m` by the writes, first to last. */
  function Replay(m: map<string, string>, writes: seq<Write>): (m': map<string, string>)
    decreases |writes|
  {
    if writes == [] then m else Replay(Apply(m, writes[0]), writes[1..])
  }

  /** What a `Get(key)` should report after the writes: the last write to
      the key decides, and with no write to it the binding in `m` stays. */
  function LatestBinding(m: map<string, string>, writes: seq<Write>, key: string): (r: (string, bool))
    decreases |writes|
  {
    if writes == [] then Lookup(m, key)
    else
      var last := writes[|writes| - 1];
      if last.key != key then LatestBinding(m, writes[..|writes| - 1], key)
      else if last.SetWrite? then (last.value, true)
      else ("", false)
  }

  lemma {:induction false} ReplaySnoc(m: map<string, string>, writes: seq<Write>, w: Write)
    ensures Replay(m, writes + [w]) == Apply(Replay(m, writes), w)
    decreases |writes|
  {
    if writes == [] {
      assert writes + [w] == [w];
      assert [w][1..] == [];
    } else {
      assert (writes + [w])[1..] == writes[1..] + [w];
      ReplaySnoc(Apply(m, writes[0]), writes[1..], w);
    }
  }

  /** After any sequence of `Set` and `Del` calls a `Get` returns the value of
      the last `Set` to that key, unless a later `Del` removed it; writes to
      other keys never matter. */
  lemma {:induction false} ReplayLookup(m: map<string, string>, writes: seq<Write>, key: string)
    ensures Lookup(Replay(m, writes), key) == LatestBinding(m, writes, key)
    decreases |writes|
  {
    if writes != [] {
      var init, last := writes[..|writes| - 1], writes[|writes| - 1];
      assert writes == init + [last];
      ReplaySnoc(m, init, last);
      ReplayLookup(m, init, key);
    }
  }

  /** The default `hashTable` builder, `HashTableBuilder`. */
  datatype TableBuilder = HashTableBuilder

  /** Runs a builder: the default one returns `NewHashTable()`. */
  method Build(builder: TableBuilder) returns (t: HashTable)
    ensures fresh(t) && t.data == map[]
  {
    t := new HashTable();
  }

  class HashTable {
    var data: map<string, string>

    /** `NewHashTable`: a table with no entries. */
    constructor ()
      ensures data == map[]
    {
      data := map[];
    }

    method Set(key: string, value: string)
      modifies this
      ensures data == Put(old(data), key, value)
    {
      data := data[key := value];
    }

    method Get(key: string) returns (value: string, found: bool)
      ensures (value, found) == Lookup(data, key)
    {
      found := key in data;
      value := if found then data[key] else "";
    }

    method Del(key: string)
      modifies this
      ensures data == Remove(old(data), key)
    {
      data := data - {key};
    }
  }
}
