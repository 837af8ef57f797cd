/** The retry budget's code over the shared store, for one window bucket. */
module RetryWindow {
  import opened SortedSets
  import opened RedisStore
  import opened RetryBudget

  class WindowBucket {
    const cache: Redis
    const key: Key
    const config: Config

    /** The locals of every call in progress; the tallies are kept for the proof only. */
    var frames: map<Member, Frame>
    ghost var invocations: nat
    ghost var zeroings: nat
    ghost var revivals: nat

    constructor (cache: Redis, key: Key, config: Config)
      requires key !in cache.cells
      ensures this.cache == cache && this.key == key && this.config == config
      ensures View() == Initial(cache.clock)
    {
      this.cache, this.key, this.config := cache, key, config;
      frames, invocations, zeroings, revivals := map[], 0, 0, 0;
    }

    ghost function View(): State
      reads this, cache
    {
      State(cache.clock,
            if key in cache.cells then Some(Bucket(cache.cells[key].value, cache.cells[key].expiry)) else None,
            frames, invocations, zeroings, revivals)
    }

    method CurrentWindow(c: Member) returns (inside: bool)
      requires FrameOf(View(), c).Away?
      modifies this`frames
      ensures View() == Step(config, old(View()), ReadClock(c))
      ensures inside <==> FrameOf(View(), c).Keyed?
      ensures inside <==> cache.clock / (if config.windowSize == 0 then 1 else config.windowSize) == config.window
    {
      WindowIsFloor(config, cache.clock);
      var length := if config.windowSize == 0 then 1 else config.windowSize;
      inside := config.window * length <= cache.clock < (config.window + 1) * length;
      if inside {
        frames := frames[c := Keyed];
      }
    }

    method CheckExists(c: Member)
      requires FrameOf(View(), c).Keyed?
      modifies this`frames
      ensures View() == Step(config, old(View()), Exists(c))
    {
      var found := cache.ExistsCmd(key);
      frames := frames[c := if found then Located else Missing];
    }

    method ZeroAttempts(c: Member)
      requires FrameOf(View(), c).Missing?
      modifies this`frames, this`zeroings, cache`cells
      ensures View() == Zeroing(old(View()), c)
      ensures View().bucket == Some(Bucket(0, if Current(old(View())) == None then None
                                              else old(View()).bucket.value.expiry))
    {
      cache.HSetCellCmd(key, 0);
      zeroings := zeroings + 1;
      frames := frames[c := Zeroed];
    }

    method SetExpiry(c: Member)
      requires FrameOf(View(), c).Zeroed?
      modifies this`frames, cache`cells
      ensures View() == TtlSet(config, old(View()), c)
    {
      cache.ExpireCmd(key, config.windowSize);
      frames := frames[c := Located];
    }

    /** incrementRetryCount and the budget check: true lets the function run. */
    method IncrementRetryCount(c: Member) returns (within: bool)
      requires FrameOf(View(), c).Located?
      modifies this, cache`cells
      ensures View() == Counted(config, old(View()), c)
      ensures within <==> View().invocations == old(View()).invocations + 1
    {
      revivals := if cache.Live(key) == None then revivals + 1 else revivals;
      var currentCount := cache.HIncrCellCmd(key);
      within := currentCount <= config.budget;
      invocations := if within then invocations + 1 else invocations;
      frames := frames[c := Away];
    }
  }
}
