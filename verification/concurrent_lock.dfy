/** The lock's code over the shared store, each method being what runs between two awaits. */
module ConcurrentLock {
  import opened SortedSets
  import opened RedisStore
  import opened LeaseLock

  class LockClient {
    const cache: Redis
    const key: Key
    const config: Config

    /** The locals of every call in progress; who wrote the record is kept for the proof only. */
    var frames: map<Member, Frame>
    var flights: set<(Member, int)>
    ghost var owner: Member

    constructor (cache: Redis, key: Key, duration: int, driftFactor: real, refreshInterval: int, delay: int)
      requires key !in cache.cells
      ensures this.cache == cache && this.key == key
      ensures config == Config(duration, Drift(duration, driftFactor), refreshInterval, delay, 1000)
      ensures Valid() && View() == State(cache.clock, None, map[], {})
    {
      this.cache, this.key := cache, key;
      config := Config(duration, Drift(duration, driftFactor), refreshInterval, delay, 1000);
      frames, flights, owner := map[], {}, 0;
    }

    ghost predicate Valid()
      reads this, cache
    {
      (key in cache.cells ==> cache.cells[key].expiry != None) && config.unit == 1000
    }

    ghost function View(): State
      reads this, cache
      requires Valid()
    {
      State(cache.clock,
            if key in cache.cells then Some(Record(owner, cache.cells[key].expiry.value)) else None,
            frames, flights)
    }

    method TryAcquire(c: Member) returns (acquired: bool)
      requires Valid() && FrameOf(View(), c).Out?
      modifies this`frames, this`owner, cache`cells
      ensures Valid() && View() == Acquired(config, old(View()), c)
      ensures acquired <==> FrameOf(View(), c).Inside?
    {
      acquired := cache.SetNxPxCmd(key, cache.clock, config.duration);
      if acquired {
        frames := frames[c := Inside(cache.clock, cache.clock)];
        owner := c;
      }
    }

    /** setInterval's callback, which reads the clock and sends EXPIRE. */
    method Beat(c: Member)
      requires Valid() && FrameOf(View(), c).Inside? && FrameOf(View(), c).fired + Gap(config) <= cache.clock
      modifies this`frames, this`flights
      ensures Valid() && View() == Step(config, old(View()), Fire(c))
    {
      var now := cache.clock;
      frames := frames[c := frames[c].(fired := now)];
      flights := flights + {(c, now)};
    }

    /** The EXPIRE of a callback that read the clock at `sent` reaches the store. */
    method RunExpire(c: Member, sent: int)
      requires Valid() && (c, sent) in flights
      modifies this`frames, this`flights, cache`cells
      ensures Valid() && View() == Step(config, old(View()), Arrive(c, sent))
    {
      var ttl := sent + config.duration - config.drift;
      cache.ExpireCmd(key, ttl);
      flights := flights - {(c, sent)};
      if c in frames && IsHolder(frames[c]) {
        frames := frames[c := frames[c].(extended := cache.clock)];
      }
    }

    method ClearTimer(c: Member)
      requires Valid() && FrameOf(View(), c).Inside?
      modifies this`frames
      ensures Valid() && View() == Step(config, old(View()), Return(c))
    {
      frames := frames[c := Leaving(frames[c].extended)];
    }

    method Release(c: Member)
      requires Valid() && FrameOf(View(), c).Leaving?
      modifies this`frames, cache`cells
      ensures Valid() && View() == Step(config, old(View()), Delete(c))
    {
      cache.DelCmd({key});
      frames := frames[c := Gone];
    }
  }
}
