/** The part of the react-query cache the hooks rely on. The library is not
    part of this model; what follows is the behaviour the hooks assume of
    it: a query key is a list of strings, the cache maps the keys it holds
    to a freshness state, `invalidateQueries({ queryKey: p })` marks stale
    every held key that starts with `p` (react-query's default prefix
    matching), and a read fetches when its query is enabled and its key is
    missing or stale. `Fresh` means "not invalidated since the last
    fetch", not react-query's own notion of freshness: the client is
    created with the default `staleTime` of 0, so every fetched entry is
    stale to react-query at once, and the refetches that triggers (on
    mount, on window focus, on reconnect) are not modelled. Reads here
    only say when an invalidation forces a refetch. */
module QueryCache {

  type QueryKey = seq<string>

  datatype Freshness = Fresh | Stale

  type Entries = map<QueryKey, Freshness>

  /** `key` starts with the elements of `prefix`. */
  predicate HasPrefix(prefix: QueryKey, key: QueryKey) {
    |prefix| <= |key| && key[..|prefix|] == prefix
  }

  /** `key` starts with one of `prefixes`. */
  predicate HasAnyPrefix(prefixes: seq<QueryKey>, key: QueryKey) {
    exists i :: 0 <= i < |prefixes| && HasPrefix(prefixes[i], key)
  }

  /** The entries after one `invalidateQueries` call. */
  function Invalidate(entries: Entries, prefix: QueryKey): (r: Entries)
    ensures r.Keys == entries.Keys
    ensures forall k :: k in r && HasPrefix(prefix, k) ==> r[k] == Stale
    ensures forall k :: k in r && !HasPrefix(prefix, k) ==> r[k] == entries[k]
  {
    map k | k in entries :: if HasPrefix(prefix, k) then Stale else entries[k]
  }

  /** The entries after one `invalidateQueries` call per prefix, in order. */
  function InvalidateAll(entries: Entries, prefixes: seq<QueryKey>): (r: Entries)
    ensures r.Keys == entries.Keys
    ensures forall k :: k in r && HasAnyPrefix(prefixes, k) ==> r[k] == Stale
    ensures forall k :: k in r && !HasAnyPrefix(prefixes, k) ==> r[k] == entries[k]
    decreases |prefixes|
  {
    if prefixes == [] then entries
    else
      var rest := InvalidateAll(Invalidate(entries, prefixes[0]), prefixes[1..]);
      assert forall k :: HasAnyPrefix(prefixes, k) <==>
        HasPrefix(prefixes[0], k) || HasAnyPrefix(prefixes[1..], k) by {
        forall k ensures HasAnyPrefix(prefixes, k) ==> HasPrefix(prefixes[0], k) || HasAnyPrefix(prefixes[1..], k) {
          if HasAnyPrefix(prefixes, k) {
            var i :| 0 <= i < |prefixes| && HasPrefix(prefixes[i], k);
            if i > 0 {
              assert prefixes[1..][i - 1] == prefixes[i];
            }
          }
        }
        forall k ensures HasAnyPrefix(prefixes[1..], k) ==> HasAnyPrefix(prefixes, k) {
          if HasAnyPrefix(prefixes[1..], k) {
            var i :| 0 <= i < |prefixes[1..]| && HasPrefix(prefixes[1..][i], k);
            assert prefixes[i + 1] == prefixes[1..][i];
          }
        }
      }
      rest
  }

  /** Invalidating twice is invalidating once. */
  lemma InvalidateIdempotent(entries: Entries, prefix: QueryKey)
    ensures Invalidate(Invalidate(entries, prefix), prefix) == Invalidate(entries, prefix)
  {
  }

  /** The order of two invalidations does not matter. */
  lemma InvalidateCommutes(entries: Entries, p: QueryKey, q: QueryKey)
    ensures Invalidate(Invalidate(entries, p), q) == Invalidate(Invalidate(entries, q), p)
  {
  }

  /** Keys that start with different first elements are never confused: no
      key has both as prefixes. */
  lemma DisjointRoots(a: string, b: string, key: QueryKey)
    requires a != b
    ensures !(HasPrefix([a], key) && HasPrefix([b], key))
  {
  }

  /** Invalidating one prefix and then the rest. */
  lemma InvalidateAllCons(entries: Entries, p: QueryKey, rest: seq<QueryKey>)
    ensures InvalidateAll(entries, [p] + rest) == InvalidateAll(Invalidate(entries, p), rest)
  {
    assert ([p] + rest)[1..] == rest;
  }

  /** A read at `key`: fetches exactly when enabled and the key is missing
      or stale. */
  predicate ShouldFetch(entries: Entries, key: QueryKey, enabled: bool) {
    enabled && (key !in entries || entries[key] == Stale)
  }

  /** The shared query client. */
  class Cache {
    var entries: Entries

    constructor ()
      ensures entries == map[]
    {
      entries := map[];
    }

    /** `queryClient.invalidateQueries({ queryKey: prefix })`. */
    method InvalidateQueries(prefix: QueryKey)
      modifies this
      ensures entries == Invalidate(old(entries), prefix)
    {
      entries := Invalidate(entries, prefix);
    }

    /** A query that renders with `key` and `enabled`; a fetch leaves the
        entry fresh (the fetched data itself is not modelled). */
    method Read(key: QueryKey, enabled: bool) returns (fetched: bool)
      modifies this
      ensures fetched == ShouldFetch(old(entries), key, enabled)
      ensures entries == if fetched then old(entries)[key := Fresh] else old(entries)
    {
      fetched := enabled && (key !in entries || entries[key] == Stale);
      if fetched {
        entries := entries[key := Fresh];
      }
    }
  }
}
