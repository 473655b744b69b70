/**
 * The cache of probes that already carry the load's reference: a key to key
 * map filled from PRB_Reference and extended as the load writes new rows,
 * so that rows written earlier in the same run (not yet visible in the
 * database) are not written twice.
 */
module ProbeRefLookups {

  import opened Wrappers

  /** One row of PRB_Reference, as far as the initialising query reads it. */
  datatype PrbReferenceRow = PrbReferenceRow(probeKey: int, refsKey: int)

  /** The probe keys the initialising query selects: those with a row for refsKey. */
  function ProbesWithReference(table: seq<PrbReferenceRow>, refsKey: int): set<int>
  {
    set r | r in table && r.refsKey == refsKey :: r.probeKey
  }

  class ProbeRefLookup {
    const refsKey: int
    var cache: map<int, int>

    /** Every cache entry maps a probe key to itself. */
    ghost predicate Valid()
      reads this
    {
      forall k | k in cache :: cache[k] == k
    }

    /** The PRB_Reference table stands in for the database the query runs against. */
    constructor (refsKey: int, table: seq<PrbReferenceRow>)
      ensures Valid() && this.refsKey == refsKey
      ensures cache.Keys == ProbesWithReference(table, refsKey)
    {
      this.refsKey := refsKey;
      cache := map k | k in ProbesWithReference(table, refsKey) :: k;
    }

    /** The key itself if the probe is cached, None (Java's null) otherwise. */
    method Lookup(probeKey: int) returns (r: Option<int>)
      requires Valid()
      ensures r == if probeKey in cache then Some(probeKey) else None
    {
      if probeKey in cache {
        r := Some(cache[probeKey]);
      } else {
        r := None;
      }
    }

    method AddToCache(probeKey: int)
      requires Valid()
      modifies this
      ensures Valid()
      ensures cache == old(cache)[probeKey := probeKey]
    {
      cache := cache[probeKey := probeKey];
    }
  }
}
