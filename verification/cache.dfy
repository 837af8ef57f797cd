/** The cache and buster decorators over the shared store, for calls that do not overlap. */
module CacheDecorators {
  import opened SortedSets
  import opened RedisStore

  /** What the decorated functions read and change: the value behind every cache key, zero if falsy. */
  class Source {
    var values: map<Member, int>

    constructor (values: map<Member, int>)
      ensures this.values == values
    {
      this.values := values;
    }

    function Read(k: Member): int
      reads this
    {
      if k in values then values[k] else 0
    }
  }

  /** Every unexpired entry holds the value an undecorated call would return. */
  ghost predicate Coherent(cache: Redis, source: Source)
    reads cache, source
  {
    forall k :: cache.Live(Item(k)) != None ==> cache.Live(Item(k)).value.value == source.Read(k) != 0
  }

  class Cache {
    const cache: Redis
    const source: Source
    const expiration: int

    constructor (cache: Redis, source: Source, expiration: int)
      ensures this.cache == cache && this.source == source && this.expiration == expiration
    {
      this.cache, this.source, this.expiration := cache, source, expiration;
    }

    /** on: a hit answers from the store, a miss calls the function and keeps a truthy result. */
    method On(k: Member) returns (result: int)
      requires Coherent(cache, source)
      modifies cache`cells
      ensures result == source.Read(k)
      ensures Coherent(cache, source)
      ensures old(cache.Live(Item(k))) != None ==> cache.cells == old(cache.cells)
      ensures old(cache.Live(Item(k))) == None ==>
        cache.cells == if result == 0 then old(cache.cells)
                       else old(cache.cells)[Item(k) := Cell(result, Some(cache.clock + expiration))]
    {
      var cached := cache.GetCmd(Item(k));
      if cached != None {
        return cached.value;
      }
      result := source.Read(k);
      if result != 0 {
        cache.SetPxCmd(Item(k), result, expiration);
      }
      forall j | cache.Live(Item(j)) != None ensures cache.Live(Item(j)).value.value == source.Read(j) != 0 {
        assert j != k ==> cache.Live(Item(j)) == old(cache.Live(Item(j)));
      }
    }
  }

  class CacheBuster {
    const cache: Redis
    const source: Source
    const invalidateOnException: bool

    constructor (cache: Redis, source: Source, invalidateOnException: bool)
      ensures this.cache == cache && this.source == source && this.invalidateOnException == invalidateOnException
    {
      this.cache, this.source, this.invalidateOnException := cache, source, invalidateOnException;
    }

    /** on: the mutation always runs; its keys are deleted when the buster decides so. */
    method On(keys: set<Member>, change: map<Member, int>, threw: bool, predicateHolds: bool) returns (busted: bool)
      modifies source, cache`cells
      ensures source.values == old(source.values) + change
      ensures busted <==> predicateHolds || (threw && invalidateOnException)
      ensures cache.cells == if busted then old(cache.cells) - (set k | k in keys :: Item(k)) else old(cache.cells)
      ensures old(Coherent(cache, source)) ==>
        (Coherent(cache, source) <==>
           forall k | k in change && !(busted && k in keys) && old(cache.Live(Item(k))) != None ::
             change[k] == old(source.Read(k)))
    {
      var shouldInvalidate := false;
      source.values := source.values + change;
      if threw {
        shouldInvalidate := invalidateOnException || predicateHolds;
      } else {
        shouldInvalidate := predicateHolds;
      }
      if shouldInvalidate {
        cache.DelCmd(set k | k in keys :: Item(k));
      }
      return shouldInvalidate;
    }
  }
}
