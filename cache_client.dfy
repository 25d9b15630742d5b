/**
 * The cache the project repository evicts from: entries by key, plus the log
 * of removal calls made on it (so that "no call at all" can be told apart
 * from "a call that removed nothing").
 */
module CacheClient {

  predicate StartsWith(s: string, prefix: string)
  {
    |prefix| <= |s| && s[..|prefix|] == prefix
  }

  /**
   * A trailing `*` in a removal pattern is a wildcard: the pattern stands for
   * every key that starts with what precedes the `*`.
   */
  function PatternPrefix(pattern: string): (prefix: string)
    ensures StartsWith(pattern, prefix)
    ensures prefix == pattern || pattern == prefix + "*"
  {
    if |pattern| > 0 && pattern[|pattern| - 1] == '*' then pattern[..|pattern| - 1] else pattern
  }

  /** The entries without the given keys; the other entries keep their values. */
  function WithoutKeys<V>(entries: map<string, V>, keys: seq<string>): (r: map<string, V>)
    ensures forall k :: k in r <==> k in entries && k !in keys
    ensures forall k :: k in r ==> r[k] == entries[k]
  {
    map k | k in entries && k !in keys :: entries[k]
  }

  /** The entries whose key does not start with prefix; the others keep their values. */
  function WithoutPrefix<V>(entries: map<string, V>, prefix: string): (r: map<string, V>)
    ensures forall k :: k in r <==> k in entries && !StartsWith(k, prefix)
    ensures forall k :: k in r ==> r[k] == entries[k]
  {
    map k | k in entries && !StartsWith(k, prefix) :: entries[k]
  }

  datatype CacheCall = RemoveAllCall(keys: seq<string>) | RemoveByPrefixCall(pattern: string)

  class Cache<V> {
    var entries: map<string, V>
    var calls: seq<CacheCall>

    constructor (entries: map<string, V>)
      ensures this.entries == entries && calls == []
    {
      this.entries := entries;
      calls := [];
    }

    /** `RemoveAllAsync(keys)`. */
    method RemoveAll(keys: seq<string>)
      modifies this
      ensures entries == WithoutKeys(old(entries), keys)
      ensures calls == old(calls) + [RemoveAllCall(keys)]
    {
      entries := WithoutKeys(entries, keys);
      calls := calls + [RemoveAllCall(keys)];
    }

    /** `RemoveByPrefixAsync(pattern)`. */
    method RemoveByPrefix(pattern: string)
      modifies this
      ensures entries == WithoutPrefix(old(entries), PatternPrefix(pattern))
      ensures calls == old(calls) + [RemoveByPrefixCall(pattern)]
    {
      entries := WithoutPrefix(entries, PatternPrefix(pattern));
      calls := calls + [RemoveByPrefixCall(pattern)];
    }
  }
}
