/**
 * The Redis store as translatePart uses it: GET and SET with an expiry. Expiry itself is never
 * observed by the core, so entries keep their TTL as data and never disappear.
 */
module Cache {
  import opened Wrappers
  import opened Config

  datatype Entry = Entry(value: string, ttl: Duration)

  type Store = map<string, Entry>

  /** What GET returns: the stored value, or None for an error (redis.Nil for a missing key, or an unreachable store). */
  function Lookup(store: Store, available: bool, key: string): (r: Option<string>)
    ensures r.Some? <==> available && key in store
  {
    if available && key in store then Some(store[key].value) else None
  }

  /** The store after SET: the key bound to the value and TTL when the store is reachable; a failed SET is ignored. */
  function Stored(store: Store, available: bool, key: string, value: string, ttl: Duration): (s: Store)
    ensures available ==> Lookup(s, available, key) == Some(value)
    ensures forall k :: k != key ==> Lookup(s, available, k) == Lookup(store, available, k)
  {
    if available then store[key := Entry(value, ttl)] else store
  }

  class Client {
    var entries: Store
    /** Whether the server answers; when it does not, every GET fails and every SET is lost. */
    const available: bool

    constructor (available: bool)
      ensures entries == map[] && this.available == available
    {
      entries := map[];
      this.available := available;
    }

    method Get(key: string) returns (r: Option<string>)
      ensures r == Lookup(entries, available, key)
    {
      if available && key in entries {
        r := Some(entries[key].value);
      } else {
        r := None;
      }
    }

    method Set(key: string, value: string, ttl: Duration)
      modifies this
      ensures entries == Stored(old(entries), available, key, value, ttl)
    {
      if available {
        entries := entries[key := Entry(value, ttl)];
      }
    }
  }
}
