/**
 * The breaker's code over the shared store, for calls that do not overlap.  At each await a call
 * lets the canaries of earlier half-open calls go on.
 */
module CircuitBreaker {
  import opened SortedSets
  import opened RedisStore
  import opened Circuit
  import CircuitCanary

  /** Circuit states as scores of the registry. */
  function ScoreOf(m: Mode): int {
    match m
    case Closed => 0
    case HalfOpen => 1
    case Open => 2
  }

  function ModeOf(score: int): (m: Mode)
    ensures 0 <= score <= 2 ==> ScoreOf(m) == score
  {
    if score == 0 then Closed else if score == 1 then HalfOpen else Open
  }

  lemma FreshOverwrites(h: Hash)
    ensures h + FreshHash == FreshHash
  {
    forall f: Field ensures f in FreshHash {
      match f
      case InFlight | Success | Failure | Rejection | LastFailure =>
    }
  }

  /** What the store holds of one breaker. */
  ghost function ViewOf(cache: Redis, name: string, self: Member, nextUid: Member): State
    reads cache
  {
    State(if self in cache.Z(Registry) then ModeOf(cache.Z(Registry)[self]) else Closed,
          cache.Z(Timeseries(name)), cache.hashes, nextUid)
  }

  class Breaker {
    const cache: Redis
    const name: string
    const self: Member      // the breaker's member in the registry
    const config: Config
    var nextUid: Member     // the next fresh bucket id

    /** init: a score of 0, that of a closed breaker, passes for no registration at all. */
    constructor (cache: Redis, name: string, self: Member, config: Config, nextUid: Member)
      modifies cache
      ensures this.cache == cache && this.name == name && this.self == self && this.config == config
      ensures cache.clock == old(cache.clock)
      ensures var before := old(ViewOf(cache, name, self, nextUid));
              View() == if before.mode == Closed then Registered(before, cache.clock) else before
    {
      this.cache, this.name, this.self, this.config, this.nextUid := cache, name, self, config, nextUid;
      new;
      var registry := cache.Z(Registry);
      if self !in registry || ScoreOf(ModeOf(registry[self])) == 0 {
        cache.ZAddCmd(Registry, self, ScoreOf(Closed));
        cache.ZAddCmd(Timeseries(name), nextUid, cache.clock);
        cache.HSetCmd(nextUid, FreshHash);
        FreshOverwrites(old(HashAt(cache.hashes, nextUid)));
        this.nextUid := nextUid + 1;
      }
    }

    ghost function View(): State
      reads this, cache
    {
      ViewOf(cache, name, self, nextUid)
    }

    method SetMode(m: Mode)
      modifies cache`zsets
      ensures View() == old(View()).(mode := m)
    {
      cache.ZAddCmd(Registry, self, ScoreOf(m));
    }

    method IncrementCounter(b: Member, f: Field, d: int) returns (n: int)
      modifies cache`hashes
      ensures View() == Incremented(old(View()), b, f, d)
      ensures n == Get(HashOf(View(), b), f)
    {
      n := cache.HIncrByCmd(b, f, d);
    }

    method GetTimeseriesData(now: int) returns (b: Option<Member>)
      ensures b == ActiveAt(config, View(), now)
    {
      b := cache.ZNewestCmd(Timeseries(name), now - config.interval, now);
    }

    method OnExpired(now: int)
      modifies this`nextUid, cache`zsets, cache`hashes
      ensures View() == Created(old(View()), now)
    {
      cache.ZAddCmd(Timeseries(name), nextUid, now);
      cache.HSetCmd(nextUid, FreshHash);
      FreshOverwrites(old(HashAt(cache.hashes, nextUid)));
      nextUid := nextUid + 1;
    }

    /** Canaries of other calls go on. */
    method Elsewhere(evs: seq<Background>)
      modifies this`nextUid, cache`zsets, cache`hashes
      ensures View() == Disturbed(old(View()), evs) && View().mode == old(View()).mode
    {
      var i := 0;
      while i < |evs|
        invariant i <= |evs|
        invariant Disturbed(View(), evs[i..]) == Disturbed(old(View()), evs)
        invariant View().mode == old(View()).mode
      {
        assert evs[i..][1..] == evs[i + 1..];
        match evs[i] {
          case NewBucket(at) => OnExpired(at);
          case InFlightMoved(b, d) => Move(b, InFlight, d);
          case Rejected(b) => Move(b, Rejection, 1);
        }
        i := i + 1;
      }
    }

    /** HINCRBY with its reply ignored. */
    method Move(b: Member, f: Field, d: int)
      modifies cache`hashes
      ensures View() == Incremented(old(View()), b, f, d)
    {
      var _ := IncrementCounter(b, f, d);
    }

    /** One turn of a canary nobody waits for. */
    method CanaryTurn(f: CircuitCanary.Frame, now: int) returns (next: CircuitCanary.Frame)
      modifies this`nextUid, cache`zsets, cache`hashes
      ensures (View(), next) == CircuitCanary.CanaryStep(config, old(View()), f, now)
    {
      match f {
        case Looking(n) =>
          if n >= config.retries {
            return CircuitCanary.Gone;
          }
          var b := GetTimeseriesData(now);
          next := if b == None then CircuitCanary.Creating(n) else CircuitCanary.Found(b.value);
        case Creating(n) =>
          OnExpired(now);
          next := CircuitCanary.Looking(n + 1);
        case Found(b) =>
          next := CircuitCanary.Read(b, Get(HashAt(cache.hashes, b), LastFailure));
        case Read(b, lastFailure) =>
          var inFlight := IncrementCounter(b, InFlight, 1);
          next := CircuitCanary.Counted(b, inFlight, lastFailure);
        case Counted(b, inFlight, lastFailure) =>
          if AllowCanary(config, inFlight, lastFailure, now) {
            return CircuitCanary.Passed(b);
          }
          Move(b, InFlight, -1);
          next := CircuitCanary.Uncounted(b);
        case Uncounted(b) =>
          Move(b, Rejection, 1);
          next := CircuitCanary.TurnedAway;
        case _ =>
          next := f;
      }
    }

    method GetActiveBucket(attempt: nat, rs: seq<Reading>) returns (b: Option<Member>)
      requires |rs| >= config.retries
      modifies this`nextUid, cache`zsets, cache`hashes
      ensures (View(), b) == ActiveBucket(config, old(View()), attempt, rs)
      ensures View().mode == old(View()).mode
      decreases config.retries - attempt
    {
      if attempt >= config.retries {
        return None;
      }
      Elsewhere(rs[attempt].before);
      b := GetTimeseriesData(rs[attempt].look);
      if b == None {
        Elsewhere(rs[attempt].between);
        OnExpired(rs[attempt].create);
        b := GetActiveBucket(attempt + 1, rs);
      }
    }

    method OnClosed(call: Call) returns (gate: Gate)
      requires |call.gate| >= config.retries
      modifies this`nextUid, cache`zsets, cache`hashes
      ensures (View(), gate) == PassClosed(config, old(View()), call)
    {
      var b := GetActiveBucket(0, call.gate);
      if b == None {
        return Broken;
      }
      var _ := IncrementCounter(b.value, InFlight, 1);
      return Pass;
    }

    method OnHalfOpen(call: Call) returns (gate: Gate)
      requires |call.gate| >= config.retries
      modifies this`nextUid, cache`zsets, cache`hashes
      ensures (View(), gate) == Canary(config, old(View()), call)
    {
      var b := GetActiveBucket(0, call.gate);
      if b == None {
        return Broken;
      }
      var lastFailure := Get(HashAt(cache.hashes, b.value), LastFailure);
      Elsewhere(call.probing);
      var inFlight := IncrementCounter(b.value, InFlight, 1);
      if AllowCanary(config, inFlight, lastFailure, call.canaryAt) {
        return Pass;
      }
      var _ := IncrementCounter(b.value, InFlight, -1);
      var _ := IncrementCounter(b.value, Rejection, 1);
      return Stop;
    }

    method OnOpen(call: Call) returns (gate: Gate)
      requires |call.gate| >= config.retries
      modifies this`nextUid, cache`zsets, cache`hashes
      ensures (View(), gate) == PassOpen(config, old(View()), call)
    {
      var b := GetTimeseriesData(call.gateAt);
      if b == None {
        SetMode(HalfOpen);
        gate := OnHalfOpen(call);
      } else {
        var _ := IncrementCounter(b.value, Rejection, 1);
        gate := Stop;
      }
    }

    /** False if no bucket is found, which throws. */
    method OnSuccess(rs: seq<Reading>, evs: seq<Background>) returns (counted: bool)
      requires |rs| >= config.retries
      modifies this`nextUid, cache`zsets, cache`hashes
      ensures var (s1, b) := ActiveBucket(config, old(View()), 0, rs);
              && counted == (b != None)
              && View() == if b == None then s1
                           else Incremented(Disturbed(s1, evs), b.value, Success, 1).(mode := Closed)
    {
      var b := GetActiveBucket(0, rs);
      if b == None {
        return false;
      }
      Elsewhere(evs);
      var _ := IncrementCounter(b.value, Success, 1);
      SetMode(Closed);
      return true;
    }

    /** The MULTI of onError. */
    method AddFailure(b: Member, at: int) returns (details: Hash)
      modifies cache`hashes
      ensures View() == Failed(old(View()), b, at)
      ensures details == HashOf(View(), b)
    {
      ghost var h := HashAt(cache.hashes, b);
      var n := IncrementCounter(b, Failure, 1);
      cache.HSetCmd(b, map[LastFailure := at]);
      details := HashAt(cache.hashes, b);
      assert h[Failure := n] + map[LastFailure := at] == h[Failure := n][LastFailure := at];
    }

    /** Whether it trips, if a bucket is found. */
    method OnError(rs: seq<Reading>, evs: seq<Background>, at: int) returns (trips: Option<bool>)
      requires |rs| >= config.retries
      modifies this`nextUid, cache`zsets, cache`hashes
      ensures (View(), trips) == CountFailure(config, old(View()), rs, evs, at)
    {
      var b := GetActiveBucket(0, rs);
      if b == None {
        return None;
      }
      Elsewhere(evs);
      var details := AddFailure(b.value, at);
      if Exceeded(config, Get(details, Failure), Get(details, Success)) {
        SetMode(Open);
        return Some(true);
      }
      return Some(false);
    }

    /** try and catch: what onSuccess throws is caught like what the function throws. */
    method CountOutcome(call: Call) returns (reply: Reply)
      requires |call.outcome| >= config.retries && |call.recovery| >= config.retries
      modifies this`nextUid, cache`zsets, cache`hashes
      ensures (View(), reply) == Record(config, old(View()), call)
    {
      if call.ok {
        var counted := OnSuccess(call.outcome, call.recording);
        if counted {
          return Returned;
        }
        var trips := OnError(call.recovery, call.recovering, call.recoveredAt);
        return if trips == Some(true) then Tripped else Lost;
      }
      var trips := OnError(call.outcome, call.recording, call.failedAt);
      return if trips == None then Lost else if trips.value then Tripped else Threw;
    }

    method Finally(call: Call, reply: Reply) returns (last: Reply)
      requires |call.final| >= config.retries
      modifies this`nextUid, cache`zsets, cache`hashes
      ensures (View(), last) == Exit(config, old(View()), call, reply)
    {
      var b := GetActiveBucket(0, call.final);
      if b == None {
        return Lost;
      }
      var _ := IncrementCounter(b.value, InFlight, -1);
      return reply;
    }

    /** getCircuitState. */
    method GetCircuitState() returns (m: Mode)
      ensures m == View().mode
    {
      var registry := cache.Z(Registry);
      m := if self in registry then ModeOf(registry[self]) else Closed;
    }

    /** on: a half-open call starts its canary, which goes on elsewhere, and does not wait for it. */
    method On(call: Call) returns (reply: Reply)
      requires Complete(config, call)
      modifies this`nextUid, cache`zsets, cache`hashes
      ensures (View(), reply) == Serve(config, old(View()), call)
    {
      Elsewhere(call.idle);
      var m := GetCircuitState();
      var gate := Pass;
      match m {
        case Closed => gate := OnClosed(call);
        case HalfOpen =>
        case Open => gate := OnOpen(call);
      }
      if gate == Stop {
        return Refused;
      }
      if gate == Broken {
        return Lost;
      }
      reply := CountOutcome(call);
      reply := Finally(call, reply);
    }
  }
}
