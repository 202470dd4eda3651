/** `functools.cached_property` over a whole object: one cache entry per
    field, filled by the first successful read and never reset. A getter
    that raises stores nothing, so the next read runs it again. */
module Memo {
  import opened Results

  /** Every cached value is what the field's conversion yields. */
  ghost predicate Coherent<F, V, E>(cache: map<F, V>, compute: F -> Result<V, E>) {
    forall f :: f in cache ==> compute(f) == Success(cache[f])
  }

  /** Reads field f: the cached value if there is one, otherwise the result of
      compute(f), stored when it succeeds. Returns the result and the new cache. */
  function Lookup<F, V, E>(cache: map<F, V>, f: F, compute: F -> Result<V, E>): (r: (Result<V, E>, map<F, V>))
    ensures f in cache ==> r == (Success(cache[f]), cache)
    ensures f !in cache ==> r.0 == compute(f)
    ensures r.1.Keys == if r.0.Success? then cache.Keys + {f} else cache.Keys
    ensures r.0.Success? ==> r.1[f] == r.0.value
    ensures forall g :: g in cache ==> r.1[g] == cache[g]
  {
    if f in cache then (Success(cache[f]), cache)
    else
      var v := compute(f);
      if v.Success? then (v, cache[f := v.value]) else (v, cache)
  }

  /** Through a coherent cache a read yields exactly what the conversion
      yields, and the cache stays coherent. */
  lemma LookupCoherent<F, V, E>(cache: map<F, V>, f: F, compute: F -> Result<V, E>)
    requires Coherent(cache, compute)
    ensures Lookup(cache, f, compute).0 == compute(f)
    ensures Coherent(Lookup(cache, f, compute).1, compute)
  {
  }

  /** Once a read has succeeded, reading the same field again returns the
      identical value and leaves the cache as it is. */
  lemma RepeatedLookup<F, V, E>(cache: map<F, V>, f: F, compute: F -> Result<V, E>)
    requires Lookup(cache, f, compute).0.Success?
    ensures Lookup(Lookup(cache, f, compute).1, f, compute) == Lookup(cache, f, compute)
  {
  }

  /** A cached field is not converted again: its read does not depend on the
      conversion at all. */
  lemma CachedLookupIgnoresConversion<F, V, E>(cache: map<F, V>, f: F, compute: F -> Result<V, E>, other: F -> Result<V, E>)
    requires f in cache
    ensures Lookup(cache, f, other) == Lookup(cache, f, compute)
  {
  }
}
