/** The queue's code over the shared store, each method being what runs between two awaits. */
module ConcurrentQueue {
  import opened SortedSets
  import opened RedisStore
  import opened LockQueue
  import opened Triangular

  /** The loop over the snapshot: scores of expired entries are collected until a live one decides. */
  method JudgeSnapshot(snap: seq<Entry>, now: int, c: Member) returns (v: Verdict)
    ensures v == Judge(snap, now, c, [])
    ensures v.Admitted? <==> exists k :: FirstLive(snap, now, c, k)
    ensures forall k: nat | FirstLive(snap, now, c, k) :: v == Admitted(MaxOf(Scores(snap[..k])))
  {
    JudgedAlone(snap, now, c);
    var expired: seq<int> := [];
    var i := 0;
    while i < |snap|
      invariant i <= |snap|
      invariant Judge(snap, now, c, []) == Judge(snap[i..], now, c, expired)
    {
      var lock := snap[i];
      assert snap[i..][1..] == snap[i + 1..];
      if lock.score <= now {
        expired := expired + [lock.score];
      } else if lock.member == c {
        return Admitted(MaxOf(expired));
      } else {
        return Denied;
      }
      i := i + 1;
    }
    return Denied;
  }

  /**
   * The waiting loop, counting the time asked of setTimeout: check k starts after
   * backoff * (0 + 1 + ... + k), and giving up happens exactly at the deadline's offset.
   */
  method WaitForTurn(backoff: int, maxAttempts: nat, granted: nat -> bool)
    returns (acquired: bool, attempts: nat, slept: int)
    ensures acquired ==>
      && 1 <= attempts <= maxAttempts && granted(attempts - 1)
      && slept == backoff * Triangle(attempts - 1)
      && (backoff > 0 ==> slept < backoff * Triangle(maxAttempts))
    ensures !acquired ==> attempts == maxAttempts && slept == backoff * Triangle(maxAttempts)
    ensures forall k | 0 <= k < attempts :: granted(k) ==> acquired && k == attempts - 1
  {
    acquired, attempts, slept := false, 0, 0;
    while !acquired
      invariant attempts <= maxAttempts
      invariant if acquired then attempts > 0 && granted(attempts - 1) && slept == backoff * Triangle(attempts - 1)
                else slept == backoff * Triangle(attempts) - backoff * attempts
      invariant forall k | 0 <= k < attempts :: granted(k) ==> acquired && k == attempts - 1
      decreases maxAttempts - attempts, !acquired
    {
      slept := slept + attempts * backoff;
      assert attempts * backoff == backoff * attempts;
      if attempts >= maxAttempts {
        return;
      }
      acquired := granted(attempts);
      NextDelay(backoff, attempts);
      attempts := attempts + 1;
    }
    if backoff > 0 {
      ChecksPrecedeDeadline(backoff, attempts - 1, maxAttempts);
    }
  }

  class LockQueueClient {
    const cache: Redis
    const key: string
    const config: Config
    const backoff: int

    /** The locals of every call in progress; the histories are kept for the proof only. */
    var frames: map<Member, Frame>
    ghost var arrivals: seq<Member>
    ghost var admissions: seq<Member>

    constructor (cache: Redis, key: string, backoff: int, maxAttempts: nat)
      ensures this.cache == cache && this.key == key && this.backoff == backoff
      ensures config == Config(backoff * Triangle(maxAttempts), maxAttempts)
      ensures frames == map[] && arrivals == [] && admissions == []
    {
      this.cache, this.key, this.backoff := cache, key, backoff;
      var maxDuration := SumOfDelays(backoff, maxAttempts);
      config := Config(maxDuration, maxAttempts);
      frames, arrivals, admissions := map[], [], [];
    }

    ghost function View(): State
      reads this, cache
    {
      State(cache.clock, cache.Z(Base(key)), frames, arrivals, admissions)
    }

    method FixDeadline(c: Member)
      requires FrameOf(View(), c).Away?
      modifies this`frames
      ensures View() == Step(config, old(View()), Arrive(c))
      ensures FrameOf(View(), c) == Arriving(cache.clock + config.maxDuration)
    {
      frames := frames[c := Arriving(cache.clock + config.maxDuration)];
    }

    method AddEntry(c: Member)
      requires FrameOf(View(), c).Arriving?
      modifies this`frames, this`arrivals, cache`zsets
      ensures View() == Enqueued(old(View()), c)
    {
      var score := frames[c].score;
      cache.ZAddCmd(Base(key), c, score);
      arrivals := arrivals + [c];
      frames := frames[c := Waiting(score, 0)];
    }

    method TakeSnapshot(c: Member)
      requires FrameOf(View(), c).Waiting? && FrameOf(View(), c).attempt < config.maxAttempts
      modifies this`frames
      ensures View() == Looked(config, old(View()), c)
    {
      var f := frames[c];
      var snap := cache.ZRangeByScoreCmd(Base(key), f.score, SNAPSHOT);
      frames := frames[c := Looking(f.score, f.attempt, snap)];
    }

    method AcquireLock(c: Member) returns (cleanup: bool)
      requires FrameOf(View(), c).Looking?
      modifies this`frames, this`admissions
      ensures View() == Decided(old(View()), c)
      ensures cleanup <==> FrameOf(View(), c).Cleaning?
    {
      var f := frames[c];
      var v := JudgeSnapshot(f.snap, cache.clock, c);
      match v {
        case Denied =>
          frames := frames[c := Waiting(f.score, f.attempt + 1)];
          cleanup := false;
        case Admitted(upto) =>
          admissions := admissions + [c];
          frames := frames[c := Cleaning(f.score, upto)];
          cleanup := true;
      }
    }

    /** With nothing expired the range is 0..-inf and removes nothing. */
    method ClearExpired(c: Member)
      requires FrameOf(View(), c).Cleaning?
      modifies this`frames, cache`zsets
      ensures View() == CleanedUp(old(View()), c)
    {
      var f := frames[c];
      if f.upto != None {
        cache.ZRemRangeByScoreCmd(Base(key), Some(0), f.upto.value);
      }
      frames := frames[c := Inside(f.score)];
    }

    /** The decorated function has returned or thrown. */
    method Return(c: Member)
      requires FrameOf(View(), c).Inside?
      modifies this`frames
      ensures View() == Step(config, old(View()), Leave(c)) && FrameOf(View(), c).Leaving?
    {
      frames := frames[c := Leaving(frames[c].score)];
    }

    /** The attempts are used up: QueueWaitExceeded. */
    method GiveUp(c: Member)
      requires FrameOf(View(), c).Waiting? && FrameOf(View(), c).attempt >= config.maxAttempts
      modifies this`frames
      ensures View() == Step(config, old(View()), LockQueue.GiveUp(c)) && FrameOf(View(), c).Leaving?
    {
      frames := frames[c := Leaving(frames[c].score)];
    }

    /** The finally block, after the function or after giving up. */
    method RemoveEntry(c: Member)
      requires FrameOf(View(), c).Leaving?
      modifies this`frames, cache`zsets
      ensures View() == Removed(old(View()), c)
      ensures c !in View().queue
    {
      cache.ZRemCmd(Base(key), c);
      frames := frames[c := Done];
    }
  }
}
