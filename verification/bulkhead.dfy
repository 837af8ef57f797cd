/**
 * The bulkhead's code over the shared store.  The small methods are single commands or batches; the
 * large ones are whole calls, which at every await let other callers do anything they may.
 */
module Bulkhead {
  import opened SortedSets
  import opened RedisStore
  import opened Semaphore

  datatype CallResult = Full | Returned | Threw

  /** What others do at each await of acquireSemaphore, in order. */
  datatype Gaps = Gaps(
    batch: seq<Action>,
    stamp: seq<Action>,
    owner: seq<Action>,
    rank: seq<Action>,
    remStamp: seq<Action>,
    remOwner: seq<Action>)

  const NoGaps := Gaps([], [], [], [], [], [])

  /** None of these actions is caller c's own. */
  predicate OthersOnly(acts: seq<Action>, c: Member) {
    forall i | 0 <= i < |acts| :: acts[i].Tick? || acts[i].Intersect? || acts[i].Burn? || acts[i].c != c
  }

  predicate OthersInGaps(g: Gaps, c: Member) {
    && OthersOnly(g.batch, c) && OthersOnly(g.stamp, c) && OthersOnly(g.owner, c) && OthersOnly(g.rank, c)
    && OthersOnly(g.remStamp, c) && OthersOnly(g.remOwner, c)
  }

  /** The run of an attempt up to the ticket, and from there up to reading the rank. */
  function TicketAmong(batch: seq<Action>, c: Member): seq<Action> {
    [Stamp(c)] + batch + [Prune(c)] + [Intersect] + [Draw(c)]
  }

  function EntryAmong(g: Gaps, c: Member): seq<Action> {
    g.stamp + [AddStamp(c)] + g.owner + [AddOwner(c)] + g.rank + [ReadRank(c)]
  }

  function AttemptAmong(g: Gaps, c: Member): seq<Action> {
    TicketAmong(g.batch, c) + EntryAmong(g, c)
  }

  function WithdrawalAmong(remStamp: seq<Action>, remOwner: seq<Action>, c: Member): seq<Action> {
    remStamp + [RemStamp(c)] + remOwner + [RemOwner(c)]
  }

  /** An attempt that is refused, its withdrawal, and the time it took beyond them. */
  function RefusedRound(g: Gaps, c: Member, pace: nat): seq<Action> {
    AttemptAmong(g, c) + WithdrawalAmong(g.remStamp, g.remOwner, c) + [Tick(pace)]
  }

  /** The actions of the first n rounds, all refused. */
  function Rounds(c: Member, pace: nat -> nat, rounds: nat -> Gaps, n: nat): seq<Action> {
    if n == 0 then [] else Rounds(c, pace, rounds, n - 1) + RefusedRound(rounds(n - 1), c, pace(n - 1))
  }

  /** Where n refused rounds lead. */
  function AfterRounds(cfg: Config, s: State, c: Member, pace: nat -> nat, rounds: nat -> Gaps, n: nat): State {
    Exec(cfg, s, Rounds(c, pace, rounds, n))
  }

  /** After n refused rounds the wait is not over yet. */
  predicate InTime(cfg: Config, s: State, c: Member, pace: nat -> nat, rounds: nat -> Gaps, wait: int, n: nat) {
    AfterRounds(cfg, s, c, pace, rounds, n).clock < s.clock + wait
  }

  /** Round n begins in time, is left alone, and finds a permit free. */
  predicate MustSucceed(cfg: Config, s: State, c: Member, pace: nat -> nat, rounds: nat -> Gaps, wait: int, n: nat) {
    && InTime(cfg, s, c, pace, rounds, wait, n) && rounds(n) == NoGaps
    && |Claimed(cfg, AfterRounds(cfg, s, c, pace, rounds, n))| < cfg.limit
  }

  /** The first n rounds begin in time, and none of them had to succeed. */
  predicate AllRefused(cfg: Config, s: State, c: Member, pace: nat -> nat, rounds: nat -> Gaps, wait: int, n: nat) {
    forall i: nat | i < n :: InTime(cfg, s, c, pace, rounds, wait, i) && !MustSucceed(cfg, s, c, pace, rounds, wait, i)
  }

  class BulkheadStrategy {
    const cache: Redis
    const key: string
    const config: Config
    const maxWait: int

    /** The locals of every call in progress; the grants are kept for the proof only. */
    var frames: map<Member, Frame>
    ghost var grants: map<Member, Grant>

    constructor (cache: Redis, key: string, limit: int, maxWait: int, executionTimeout: int)
      ensures this.cache == cache && this.key == key && this.maxWait == maxWait
      ensures config == Config(limit, maxWait + executionTimeout)
      ensures frames == map[] && grants == map[]
    {
      this.cache, this.key, this.maxWait := cache, key, maxWait;
      config := Config(limit, maxWait + executionTimeout);
      frames, grants := map[], map[];
    }

    ghost function View(): State
      reads this, cache
    {
      State(cache.clock, cache.Z(Base(key)), cache.Z(Owner(key)), cache.C(Counter(key)), frames, grants)
    }

    method ReadClock(c: Member)
      requires FrameOf(View(), c).Idle?
      modifies this`frames
      ensures View() == Goto(old(View()), c, Stamped(old(cache.clock)))
    {
      frames := frames[c := Stamped(cache.clock)];
    }

    /** The MULTI batch: prune, intersect, and draw a ticket, with nothing in between. */
    method DrawTicket(c: Member)
      requires FrameOf(View(), c).Stamped?
      modifies this`frames, cache`zsets, cache`counters
      ensures View() == Drawn(Intersected(Pruned(config, old(View()), c)), c)
      ensures FrameOf(View(), c).Ticketed?
      ensures View().owners.Keys <= View().stamps.Keys
    {
      var now := frames[c].stamp;
      cache.ZRemRangeByScoreCmd(Base(key), None, now - config.lease);
      cache.ZInterStoreCmd(Owner(key), Owner(key), Base(key), 1, 0);
      var counter := cache.IncrCmd(Counter(key));
      frames := frames[c := Ticketed(now, counter)];
    }

    /** The batch's commands one by one, as a pipeline may send them. */
    method SendPrune(c: Member)
      requires !FrameOf(View(), c).Idle?
      modifies cache`zsets
      ensures View() == Pruned(config, old(View()), c)
    {
      cache.ZRemRangeByScoreCmd(Base(key), None, frames[c].stamp - config.lease);
    }

    method SendDraw(c: Member)
      requires FrameOf(View(), c).Stamped?
      modifies this`frames, cache`counters
      ensures View() == Drawn(old(View()), c)
    {
      var counter := cache.IncrCmd(Counter(key));
      frames := frames[c := Ticketed(frames[c].stamp, counter)];
    }

    /** The earlier batch sent once more by a pipeline that kept it; its replies are not used. */
    method ResendPrefix(c: Member)
      requires !FrameOf(View(), c).Idle?
      modifies cache`zsets, cache`counters
      ensures View() == Intersected(Pruned(config, old(View()), c)).(counter := old(View()).counter + 1)
    {
      cache.ZRemRangeByScoreCmd(Base(key), None, frames[c].stamp - config.lease);
      cache.ZInterStoreCmd(Owner(key), Owner(key), Base(key), 1, 0);
      var _ := cache.IncrCmd(Counter(key));
    }

    method SendStamp(c: Member)
      requires FrameOf(View(), c).Ticketed? || FrameOf(View(), c).Refused?
      modifies this`frames, cache`zsets
      ensures View() == StampInserted(old(View()), c)
      ensures FrameOf(View(), c).StampAdded? <==> old(FrameOf(View(), c)).Ticketed?
    {
      var f := frames[c];
      cache.ZAddCmd(Base(key), c, f.stamp);
      frames := frames[c := if f.Ticketed? then StampAdded(f.stamp, f.ticket) else Readding(f.stamp, f.ticket)];
    }

    method SendOwner(c: Member)
      requires FrameOf(View(), c).StampAdded? || FrameOf(View(), c).Readding?
      modifies this`frames, cache`zsets
      ensures View() == OwnerInserted(old(View()), c)
      ensures FrameOf(View(), c).Inserted? <==> old(FrameOf(View(), c)).StampAdded?
    {
      var f := frames[c];
      cache.ZAddCmd(Owner(key), c, f.ticket);
      frames := frames[c := if f.StampAdded? then Inserted(f.stamp, f.ticket) else Refused(f.stamp, f.ticket)];
    }

    method JudgeRank(c: Member) returns (granted: bool)
      requires FrameOf(View(), c).Inserted?
      modifies this`frames, this`grants
      ensures View() == RankRead(config, old(View()), c)
      ensures granted <==> FrameOf(View(), c).Holding?
      ensures !granted <==> FrameOf(View(), c).Refused?
    {
      var f := frames[c];
      var rank := cache.ZRankCmd(Owner(key), c);
      if rank == None || rank.value >= config.limit {
        frames := frames[c := Refused(f.stamp, f.ticket)];
        return false;
      }
      grants := grants[c := Grant(Ahead(View().owners, c), Uninserted(View(), f.ticket))];
      frames := frames[c := Holding(f.stamp, f.ticket)];
      return true;
    }

    method SendRemStamp(c: Member)
      requires FrameOf(View(), c).Holding? || FrameOf(View(), c).Refused?
      modifies this`frames, cache`zsets
      ensures View() == StampRemoved(old(View()), c)
    {
      var f := frames[c];
      cache.ZRemCmd(Base(key), c);
      frames := frames[c := Removing(f.stamp, f.ticket)];
    }

    method SendRemOwner(c: Member)
      requires FrameOf(View(), c).Removing?
      modifies this`frames, cache`zsets
      ensures View() == OwnerRemoved(old(View()), c)
    {
      cache.ZRemCmd(Owner(key), c);
      frames := frames[c := Idle];
    }

    /** One action of some caller, if that caller is at the right place. */
    method Perform(a: Action)
      modifies this, cache`zsets, cache`counters, cache`clock
      ensures View() == Step(config, old(View()), a)
    {
      match a {
        case Tick(d) => cache.Tick(d);
        case Intersect => cache.ZInterStoreCmd(Owner(key), Owner(key), Base(key), 1, 0);
        case Burn => var _ := cache.IncrCmd(Counter(key));
        case Stamp(c) => if Place(c).Idle? { ReadClock(c); }
        case Prune(c) => if !Place(c).Idle? { SendPrune(c); }
        case Draw(c) => if Place(c).Stamped? { SendDraw(c); }
        case AddStamp(c) => if Place(c).Ticketed? || Place(c).Refused? { SendStamp(c); }
        case AddOwner(c) => if Place(c).StampAdded? || Place(c).Readding? { SendOwner(c); }
        case ReadRank(c) => if Place(c).Inserted? { var _ := JudgeRank(c); }
        case RemStamp(c) => if Place(c).Holding? || Place(c).Refused? { SendRemStamp(c); }
        case RemOwner(c) => if Place(c).Removing? { SendRemOwner(c); }
      }
    }

    function Place(c: Member): Frame
      reads this
    {
      if c in frames then frames[c] else Idle
    }

    /** An await of caller c: the others go on. */
    method Elsewhere(acts: seq<Action>, c: Member)
      requires OthersOnly(acts, c)
      modifies this, cache`zsets, cache`counters, cache`clock
      ensures View() == Exec(config, old(View()), acts)
      ensures FrameOf(View(), c) == old(FrameOf(View(), c))
    {
      ghost var s := View();
      for i := 0 to |acts|
        invariant View() == Exec(config, s, acts[..i])
      {
        assert acts[..i + 1] == acts[..i] + [acts[i]];
        ExecSnoc(config, s, acts[..i], acts[i]);
        Perform(acts[i]);
      }
      assert acts[..|acts|] == acts;
      OthersLeaveFrame(config, s, acts, c);
    }

    /** The two commands that release a permit or withdraw a refused attempt. */
    method ReleaseSemaphore(c: Member, remStamp: seq<Action>, remOwner: seq<Action>)
      requires Inv(config, View()) && (FrameOf(View(), c).Holding? || FrameOf(View(), c).Refused?)
      requires OthersOnly(remStamp, c) && OthersOnly(remOwner, c)
      modifies this, cache`zsets, cache`counters, cache`clock
      ensures View() == Exec(config, old(View()), WithdrawalAmong(remStamp, remOwner, c))
      ensures Inv(config, View()) && FrameOf(View(), c).Idle? && c !in View().stamps && c !in View().owners
    {
      WithdrawalRun(config, View(), remStamp, remOwner, c);
      RunKeepsInvFrom(config, View(), WithdrawalAmong(remStamp, remOwner, c));
      Elsewhere(remStamp, c);
      SendRemStamp(c);
      Elsewhere(remOwner, c);
      SendRemOwner(c);
      assert EntriesAgree(View(), c);
    }

    /** From reading the clock to drawing the ticket. */
    method AttemptTicket(c: Member, g: Gaps)
      requires FrameOf(View(), c).Idle? && OthersInGaps(g, c)
      modifies this, cache`zsets, cache`counters, cache`clock
      ensures View() == Exec(config, old(View()), TicketAmong(g.batch, c))
      ensures FrameOf(View(), c).Ticketed? && FrameOf(View(), c).stamp == old(cache.clock)
    {
      TicketRun(config, View(), g.batch, c);
      ReadClock(c);
      Elsewhere(g.batch, c);
      DrawTicket(c);
    }

    /** Both insertions. */
    method AttemptInsert(c: Member, g: Gaps)
      requires FrameOf(View(), c).Ticketed? && OthersInGaps(g, c)
      modifies this, cache`zsets, cache`counters, cache`clock
      ensures View() ==
        Then(config, Then(config, old(View()), g.stamp, AddStamp(c)), g.owner, AddOwner(c))
      ensures FrameOf(View(), c).Inserted? && FrameOf(View(), c).stamp == old(FrameOf(View(), c)).stamp
    {
      Elsewhere(g.stamp, c);
      SendStamp(c);
      Elsewhere(g.owner, c);
      SendOwner(c);
    }

    /** From inserting the stamp to reading the rank. */
    method AttemptEntry(c: Member, g: Gaps) returns (granted: bool)
      requires FrameOf(View(), c).Ticketed? && OthersInGaps(g, c)
      modifies this, cache`zsets, cache`counters, cache`clock
      ensures View() == Exec(config, old(View()), EntryAmong(g, c))
      ensures if granted then FrameOf(View(), c).Holding? else FrameOf(View(), c).Refused?
      ensures FrameOf(View(), c).stamp == old(FrameOf(View(), c)).stamp
    {
      EntryRun(config, View(), g, c);
      AttemptInsert(c, g);
      Elsewhere(g.rank, c);
      granted := JudgeRank(c);
    }

    /** acquireSemaphore among others: a refused attempt takes its entries back. */
    method AcquireSemaphore(c: Member, g: Gaps) returns (acquired: bool)
      requires Inv(config, View()) && FrameOf(View(), c).Idle? && OthersInGaps(g, c)
      modifies this, cache`zsets, cache`counters, cache`clock
      ensures View() == Exec(config, old(View()),
                AttemptAmong(g, c) + if acquired then [] else WithdrawalAmong(g.remStamp, g.remOwner, c))
      ensures Inv(config, View())
      ensures if acquired then FrameOf(View(), c).Holding? && FrameOf(View(), c).stamp == old(cache.clock)
              else FrameOf(View(), c).Idle? && c !in View().stamps && c !in View().owners
      ensures g == NoGaps ==> (acquired <==> |Claimed(config, old(View()))| < config.limit)
      ensures g == NoGaps && acquired ==> cache.clock == old(cache.clock)
    {
      ghost var s := View();
      AttemptOutcome(config, s, g, c);
      AttemptTicket(c, g);
      acquired := AttemptEntry(c, g);
      assert AttemptAmong(g, c) + [] == AttemptAmong(g, c);
      if !acquired {
        ReleaseSemaphore(c, g.remStamp, g.remOwner);
        ExecConcat(config, s, AttemptAmong(g, c), WithdrawalAmong(g.remStamp, g.remOwner, c));
      }
    }

    /** One round of tryEnterBulkhead; a refused attempt takes some time. */
    method TryOnce(c: Member, pace: nat, g: Gaps) returns (acquired: bool)
      requires Inv(config, View()) && FrameOf(View(), c).Idle? && OthersInGaps(g, c)
      modifies this, cache`zsets, cache`counters, cache`clock
      ensures Inv(config, View())
      ensures if acquired then FrameOf(View(), c).Holding? && FrameOf(View(), c).stamp == old(cache.clock)
              else FrameOf(View(), c).Idle? && cache.clock >= old(cache.clock) + pace
      ensures View() == Exec(config, old(View()), if acquired then AttemptAmong(g, c) else RefusedRound(g, c, pace))
      ensures g == NoGaps ==> (acquired <==> |Claimed(config, old(View()))| < config.limit)
      ensures g == NoGaps && acquired ==> cache.clock == old(cache.clock)
    {
      ghost var s := View();
      acquired := AcquireSemaphore(c, g);
      assert AttemptAmong(g, c) + [] == AttemptAmong(g, c);
      if !acquired {
        ghost var run := AttemptAmong(g, c) + WithdrawalAmong(g.remStamp, g.remOwner, c);
        ClockRuns(config, s, run);
        ExecSnoc(config, s, run, Tick(pace));
        StepKeepsInv(config, View(), Tick(pace));
        cache.Tick(pace);
      }
    }

    /**
     * tryEnterBulkhead: rounds 0 to n - 1 are refused and begin before the wait is over; round n is
     * granted, or begins too late and does not take place.
     */
    method TryEnterBulkhead(c: Member, pace: nat -> nat, rounds: nat -> Gaps) returns (acquired: bool, ghost n: nat)
      requires Inv(config, View()) && FrameOf(View(), c).Idle?
      requires forall n :: pace(n) > 0 && OthersInGaps(rounds(n), c)
      modifies this, cache`zsets, cache`counters, cache`clock
      ensures Inv(config, View())
      ensures View() == Exec(config, AfterRounds(config, old(View()), c, pace, rounds, n),
                             if acquired then AttemptAmong(rounds(n), c) else [])
      ensures forall i: nat | i < n || (i == n && acquired) ::
                InTime(config, old(View()), c, pace, rounds, maxWait, i)
      ensures if acquired then FrameOf(View(), c).Holding? && FrameOf(View(), c).stamp < old(View().clock) + maxWait
              else FrameOf(View(), c).Idle? && View().clock >= old(View().clock) + maxWait
      ensures !acquired ==> c !in View().stamps && c !in View().owners
      ensures forall i: nat | MustSucceed(config, old(View()), c, pace, rounds, maxWait, i) :: acquired && n <= i
      ensures maxWait <= 0 ==> !acquired && View() == old(View())
    {
      ghost var s := View();
      var end, round := cache.clock + maxWait, 0;
      while cache.clock < end
        invariant Inv(config, View()) && FrameOf(View(), c).Idle?
        invariant View() == AfterRounds(config, s, c, pace, rounds, round)
        invariant AllRefused(config, s, c, pace, rounds, maxWait, round)
        invariant round > 0 ==> maxWait > 0
        decreases end - cache.clock
      {
        acquired := TryOnce(c, pace(round), rounds(round));
        if acquired {
          return true, round;
        }
        OneMoreRound(config, s, c, pace, rounds, round);
        round := round + 1;
      }
      assert EntriesAgree(View(), c);
      NoneSucceeds(config, s, c, pace, rounds, maxWait, round);
      return false, round;
    }

    /**
     * on: the permit is held while the function runs, which others may see through in any way, and
     * returned whether the function returns or throws.
     */
    method Call(c: Member, pace: nat -> nat, rounds: nat -> Gaps, meanwhile: seq<Action>, throws: bool,
                remStamp: seq<Action>, remOwner: seq<Action>)
      returns (r: CallResult, ghost n: nat)
      requires Inv(config, View()) && FrameOf(View(), c).Idle?
      requires forall n :: pace(n) > 0 && OthersInGaps(rounds(n), c)
      requires OthersOnly(meanwhile, c) && OthersOnly(remStamp, c) && OthersOnly(remOwner, c)
      modifies this, cache`zsets, cache`counters, cache`clock
      ensures Inv(config, View()) && FrameOf(View(), c).Idle?
      ensures c !in View().stamps && c !in View().owners
      ensures r == Full || r == if throws then Threw else Returned
      ensures View() == Exec(config, AfterRounds(config, old(View()), c, pace, rounds, n),
                             if r == Full then []
                             else AttemptAmong(rounds(n), c) + meanwhile + WithdrawalAmong(remStamp, remOwner, c))
      ensures forall i: nat | i < n || (i == n && r != Full) ::
                InTime(config, old(View()), c, pace, rounds, maxWait, i)
      ensures r == Full ==> View().clock >= old(View().clock) + maxWait
      ensures forall i: nat | MustSucceed(config, old(View()), c, pace, rounds, maxWait, i) :: r != Full && n <= i
    {
      ghost var s := View();
      var acquired;
      acquired, n := TryEnterBulkhead(c, pace, rounds);
      if !acquired {
        return Full, n;
      }
      ghost var t := AfterRounds(config, s, c, pace, rounds, n);
      RunKeepsInvFrom(config, View(), meanwhile);
      ExecConcat(config, t, AttemptAmong(rounds(n), c), meanwhile);
      Elsewhere(meanwhile, c);
      ExecConcat(config, t, AttemptAmong(rounds(n), c) + meanwhile, WithdrawalAmong(remStamp, remOwner, c));
      ReleaseSemaphore(c, remStamp, remOwner);
      r := if throws then Threw else Returned;
    }
  }

  /** Others act, then one action of the caller. */
  function Then(cfg: Config, s: State, others: seq<Action>, a: Action): State {
    Step(cfg, Exec(cfg, s, others), a)
  }

  lemma AwaitThen(cfg: Config, s: State, run: seq<Action>, others: seq<Action>, a: Action)
    ensures Exec(cfg, s, run + others + [a]) == Then(cfg, Exec(cfg, s, run), others, a)
  {
    ExecConcat(cfg, s, run, others);
    ExecSnoc(cfg, s, run + others, a);
  }

  lemma FirstThen(cfg: Config, s: State, others: seq<Action>, a: Action)
    ensures Exec(cfg, s, others + [a]) == Then(cfg, s, others, a)
  {
    ExecSnoc(cfg, s, others, a);
  }

  lemma TicketRun(cfg: Config, s: State, batch: seq<Action>, c: Member)
    ensures var s1 := Then(cfg, Step(cfg, s, Stamp(c)), batch, Prune(c));
            Exec(cfg, s, TicketAmong(batch, c)) == Step(cfg, Step(cfg, s1, Intersect), Draw(c))
  {
    var run := [Stamp(c)] + batch + [Prune(c)];
    FirstThen(cfg, s, [], Stamp(c));
    assert [] + [Stamp(c)] == [Stamp(c)];
    AwaitThen(cfg, s, [Stamp(c)], batch, Prune(c));
    ExecSnoc(cfg, s, run, Intersect);
    ExecSnoc(cfg, s, run + [Intersect], Draw(c));
  }

  lemma EntryRun(cfg: Config, s: State, g: Gaps, c: Member)
    ensures var s2 := Then(cfg, Then(cfg, s, g.stamp, AddStamp(c)), g.owner, AddOwner(c));
            Exec(cfg, s, EntryAmong(g, c)) == Then(cfg, s2, g.rank, ReadRank(c))
  {
    var run := g.stamp + [AddStamp(c)];
    FirstThen(cfg, s, g.stamp, AddStamp(c));
    AwaitThen(cfg, s, run, g.owner, AddOwner(c));
    AwaitThen(cfg, s, run + g.owner + [AddOwner(c)], g.rank, ReadRank(c));
  }

  lemma WithdrawalRun(cfg: Config, s: State, remStamp: seq<Action>, remOwner: seq<Action>, c: Member)
    ensures Exec(cfg, s, WithdrawalAmong(remStamp, remOwner, c))
         == Then(cfg, Then(cfg, s, remStamp, RemStamp(c)), remOwner, RemOwner(c))
  {
    FirstThen(cfg, s, remStamp, RemStamp(c));
    AwaitThen(cfg, s, remStamp + [RemStamp(c)], remOwner, RemOwner(c));
  }

  /** An attempt among others keeps the invariant; among none it is decided by the claims. */
  lemma AttemptOutcome(cfg: Config, s: State, g: Gaps, c: Member)
    requires Inv(cfg, s) && FrameOf(s, c).Idle?
    ensures var t := Exec(cfg, Exec(cfg, s, TicketAmong(g.batch, c)), EntryAmong(g, c));
            && t == Exec(cfg, s, AttemptAmong(g, c)) && Inv(cfg, t)
            && (g == NoGaps ==> t.clock == s.clock && (FrameOf(t, c).Holding? <==> |Claimed(cfg, s)| < cfg.limit))
  {
    ExecConcat(cfg, s, TicketAmong(g.batch, c), EntryAmong(g, c));
    RunKeepsInvFrom(cfg, s, AttemptAmong(g, c));
    if g == NoGaps {
      assert AttemptAmong(g, c) == Attempt(c);
      AttemptRuns(cfg, s, c);
      AttemptDecision(cfg, s, c);
    }
  }

  lemma {:induction false} OthersLeaveFrame(cfg: Config, s: State, acts: seq<Action>, c: Member)
    requires OthersOnly(acts, c)
    ensures FrameOf(Exec(cfg, s, acts), c) == FrameOf(s, c)
  {
    if acts != [] {
      var n := |acts| - 1;
      OthersLeaveFrame(cfg, s, acts[..n], c);
      var t := Exec(cfg, s, acts[..n]);
      assert acts[n].Tick? || acts[n].Intersect? || acts[n].Burn? || acts[n].c != c;
    }
  }

  lemma {:induction false} ClockRuns(cfg: Config, s: State, acts: seq<Action>)
    ensures Exec(cfg, s, acts).clock >= s.clock
  {
    if acts != [] {
      ClockRuns(cfg, s, acts[..|acts| - 1]);
    }
  }

  lemma {:induction false} RoundsTakeTime(cfg: Config, s: State, c: Member, pace: nat -> nat, rounds: nat -> Gaps,
                                          n: nat, i: nat)
    requires n <= i
    ensures AfterRounds(cfg, s, c, pace, rounds, i).clock >= AfterRounds(cfg, s, c, pace, rounds, n).clock
    decreases i
  {
    if n < i {
      RoundsTakeTime(cfg, s, c, pace, rounds, n, i - 1);
      OneMoreRound(cfg, s, c, pace, rounds, i - 1);
      ClockRuns(cfg, AfterRounds(cfg, s, c, pace, rounds, i - 1), RefusedRound(rounds(i - 1), c, pace(i - 1)));
    }
  }

  lemma OneMoreRound(cfg: Config, s: State, c: Member, pace: nat -> nat, rounds: nat -> Gaps, n: nat)
    ensures AfterRounds(cfg, s, c, pace, rounds, n + 1)
         == Exec(cfg, AfterRounds(cfg, s, c, pace, rounds, n), RefusedRound(rounds(n), c, pace(n)))
  {
    ExecConcat(cfg, s, Rounds(c, pace, rounds, n), RefusedRound(rounds(n), c, pace(n)));
  }

  lemma NoneSucceeds(cfg: Config, s: State, c: Member, pace: nat -> nat, rounds: nat -> Gaps, wait: int, n: nat)
    requires AllRefused(cfg, s, c, pace, rounds, wait, n) && !InTime(cfg, s, c, pace, rounds, wait, n)
    ensures forall i: nat :: !MustSucceed(cfg, s, c, pace, rounds, wait, i)
  {
    forall i: nat ensures !MustSucceed(cfg, s, c, pace, rounds, wait, i) {
      if i >= n {
        RoundsTakeTime(cfg, s, c, pace, rounds, n, i);
      }
    }
  }

  lemma {:induction false} RunKeepsInvFrom(cfg: Config, s: State, acts: seq<Action>)
    requires Inv(cfg, s)
    ensures Inv(cfg, Exec(cfg, s, acts))
  {
    if acts != [] {
      RunKeepsInvFrom(cfg, s, acts[..|acts| - 1]);
      StepKeepsInv(cfg, Exec(cfg, s, acts[..|acts| - 1]), acts[|acts| - 1]);
    }
  }
}
