/**
 * The lease lock of one key: SET NX PX, heartbeats that extend the key, and an unconditional DEL.
 */
module LeaseLock {
  import opened SortedSets

  /**
   * `delay` bounds how late a step may run after it is due.  `unit` is how many milliseconds EXPIRE
   * takes one unit of its argument for: 1000 for the command the code sends, 1 for PEXPIRE.
   */
  datatype Config = Config(duration: int, drift: int, refreshInterval: int, delay: int, unit: int)

  /** The stored record, with the caller whose SET wrote it. */
  datatype Record = Record(owner: Member, expiry: int)

  /**
   * A call: `fired` is when its timer last fired, or its SET started it; `extended` is when the
   * store last started or prolonged its lease.
   */
  datatype Frame = Out | Inside(fired: int, extended: int) | Leaving(extended: int) | Gone

  /** `flights` are the heartbeats under way: whose they are, and the clock their callback read. */
  datatype State = State(clock: int, record: Option<Record>, frames: map<Member, Frame>, flights: set<(Member, int)>)

  datatype Action =
    | Tick(d: nat)
    | Acquire(c: Member)
    | Fire(c: Member)                   // the timer's callback sends EXPIRE
    | Arrive(c: Member, sent: int)      // the EXPIRE sent at `sent` runs, whoever owns the record by then
    | Return(c: Member)                 // the function is over and the timer cleared
    | Delete(c: Member)                 // DEL, whoever owns the record by then

  function Initial(clock: nat): State {
    State(clock, None, map[], {})
  }

  function FrameOf(s: State, c: Member): Frame {
    if c in s.frames then s.frames[c] else Out
  }

  function Goto(s: State, c: Member, f: Frame): State {
    s.(frames := s.frames[c := f])
  }

  /** Between its SET and its DEL. */
  predicate IsHolder(f: Frame) {
    f.Inside? || f.Leaving?
  }

  predicate Stored(s: State) {
    s.record != None && s.record.value.expiry > s.clock
  }

  /** The timer's period. */
  function Gap(cfg: Config): int {
    cfg.duration - cfg.refreshInterval
  }

  /** The code passes EXPIRE, which wants a time to live, the absolute time at which the lease should end. */
  function Expired(cfg: Config, s: State, sent: int): State {
    var ttl := sent + cfg.duration - cfg.drift;
    if !Stored(s) then s
    else if ttl <= 0 then s.(record := None)
    else s.(record := Some(s.record.value.(expiry := s.clock + cfg.unit * ttl)))
  }

  function Acquired(cfg: Config, s: State, c: Member): State {
    if FrameOf(s, c).Out? && !Stored(s) then
      Goto(s, c, Inside(s.clock, s.clock)).(record := Some(Record(c, s.clock + cfg.duration)))
    else
      s
  }

  /** The timer fires no sooner than a full period after it fired last. */
  function Fired(cfg: Config, s: State, c: Member): State {
    var f := FrameOf(s, c);
    if f.Inside? && f.fired + Gap(cfg) <= s.clock
    then Goto(s, c, f.(fired := s.clock)).(flights := s.flights + {(c, s.clock)})
    else s
  }

  function Arrived(cfg: Config, s: State, c: Member, sent: int): State {
    if (c, sent) !in s.flights then
      s
    else
      var t := Expired(cfg, s, sent).(flights := s.flights - {(c, sent)});
      var f := FrameOf(s, c);
      if IsHolder(f) then Goto(t, c, f.(extended := s.clock)) else t
  }

  function Step(cfg: Config, s: State, a: Action): State {
    match a
    case Tick(d) => s.(clock := s.clock + d)
    case Acquire(c) => Acquired(cfg, s, c)
    case Fire(c) => Fired(cfg, s, c)
    case Arrive(c, sent) => Arrived(cfg, s, c, sent)
    case Return(c) => if FrameOf(s, c).Inside? then Goto(s, c, Leaving(FrameOf(s, c).extended)) else s
    case Delete(c) => if FrameOf(s, c).Leaving? then Goto(s, c, Gone).(record := None) else s
  }

  function Exec(cfg: Config, s: State, acts: seq<Action>): State {
    if acts == [] then s else Step(cfg, Exec(cfg, s, acts[..|acts| - 1]), acts[|acts| - 1])
  }

  /** The time a holder has until its next heartbeat or its DEL must have reached the store. */
  function Due(cfg: Config, f: Frame): int
    requires IsHolder(f)
  {
    f.extended + Gap(cfg) + cfg.delay
  }

  /** Time does not pass a holder's due time. */
  ghost predicate OnTime(cfg: Config, s: State, a: Action) {
    a.Tick? ==> forall c | c in s.frames && IsHolder(s.frames[c]) :: s.clock + a.d <= Due(cfg, s.frames[c])
  }

  ghost predicate OnTimeRun(cfg: Config, start: nat, acts: seq<Action>) {
    acts == [] ||
    (var n := |acts| - 1;
     OnTimeRun(cfg, start, acts[..n]) && OnTime(cfg, Exec(cfg, Initial(start), acts[..n]), acts[n]))
  }

  /** What any configuration satisfies. */
  predicate Sensible(cfg: Config) {
    0 <= cfg.refreshInterval < cfg.duration && cfg.drift >= 0 && cfg.delay >= 0 && cfg.unit >= 1
  }

  /**
   * The first lease outlives the time to the first heartbeat, and so does every prolonged one, the
   * earliest heartbeat being sent one period after the start.
   */
  predicate Safe(cfg: Config, start: nat) {
    && cfg.delay < cfg.refreshInterval
    && 0 < start + Gap(cfg) + cfg.duration - cfg.drift
    && Gap(cfg) + cfg.delay < cfg.unit * (start + Gap(cfg) + cfg.duration - cfg.drift)
  }

  lemma Stretch(unit: int, least: int, ttl: int)
    requires unit >= 1 && 0 <= least <= ttl
    ensures least <= ttl <= unit * ttl && unit * least <= unit * ttl
  {
    assert unit * ttl - ttl == (unit - 1) * ttl;
    assert unit * ttl - unit * least == unit * (ttl - least);
  }

  /** On a clock past the drift, in any unit, safety is exactly a delay below the refresh interval. */
  lemma SafeIffRefreshInTime(cfg: Config, start: nat)
    requires Sensible(cfg) && cfg.drift <= start
    ensures Safe(cfg, start) <==> cfg.delay < cfg.refreshInterval
  {
    var ttl := start + Gap(cfg) + cfg.duration - cfg.drift;
    Stretch(cfg.unit, ttl, ttl);
  }

  /** A refresh interval above drift plus delay is safe on any clock and in any unit. */
  lemma RefreshAboveDriftIsSafe(cfg: Config, start: nat)
    requires Sensible(cfg) && cfg.refreshInterval > cfg.drift + cfg.delay
    ensures Safe(cfg, start)
  {
    var ttl := start + Gap(cfg) + cfg.duration - cfg.drift;
    Stretch(cfg.unit, ttl, ttl);
  }

  /** A holder owns the record, and the record outlives the holder's due time. */
  predicate Holds(cfg: Config, start: nat, s: State, c: Member) {
    && start <= s.clock
    && (FrameOf(s, c).Inside? ==> start <= FrameOf(s, c).fired)
    && (IsHolder(FrameOf(s, c)) ==>
      && s.record != None && s.record.value.owner == c
      && FrameOf(s, c).extended <= s.clock <= Due(cfg, FrameOf(s, c)) < s.record.value.expiry)
  }

  /** Heartbeats under way were sent a period after the start at least. */
  predicate FlightsSound(cfg: Config, start: nat, s: State) {
    forall f | f in s.flights :: start + Gap(cfg) <= f.1
  }

  /** A heartbeat sent in time leaves the record to its owner, for more than a period and a delay. */
  lemma ExpireProlongs(cfg: Config, start: nat, s: State, sent: int)
    requires Sensible(cfg) && Safe(cfg, start) && Stored(s) && start + Gap(cfg) <= sent
    ensures var t := Expired(cfg, s, sent);
            && t.record != None && t.record.value.owner == s.record.value.owner
            && s.clock + Gap(cfg) + cfg.delay < t.record.value.expiry
  {
    Stretch(cfg.unit, start + Gap(cfg) + cfg.duration - cfg.drift, sent + cfg.duration - cfg.drift);
  }

  lemma StepKeepsHolds(cfg: Config, start: nat, s: State, a: Action, c: Member)
    requires Sensible(cfg) && Safe(cfg, start) && OnTime(cfg, s, a)
    requires Holds(cfg, start, s, c) && FlightsSound(cfg, start, s)
    requires !a.Tick? ==> Holds(cfg, start, s, a.c)
    ensures Holds(cfg, start, Step(cfg, s, a), c) && FlightsSound(cfg, start, Step(cfg, s, a))
  {
    if a.Arrive? && (a.c, a.sent) in s.flights && Stored(s) {
      ExpireProlongs(cfg, start, s, a.sent);
    }
  }

  lemma {:induction false} RunKeepsHolds(cfg: Config, start: nat, acts: seq<Action>, c: Member)
    requires Sensible(cfg) && Safe(cfg, start) && OnTimeRun(cfg, start, acts)
    ensures var s := Exec(cfg, Initial(start), acts); Holds(cfg, start, s, c) && FlightsSound(cfg, start, s)
  {
    if acts != [] {
      var n := |acts| - 1;
      RunKeepsHolds(cfg, start, acts[..n], c);
      if !acts[n].Tick? {
        RunKeepsHolds(cfg, start, acts[..n], acts[n].c);
      }
      StepKeepsHolds(cfg, start, Exec(cfg, Initial(start), acts[..n]), acts[n], c);
    }
  }

  /** With timely heartbeats at most one caller is between its SET and its DEL. */
  lemma AtMostOneHolder(cfg: Config, start: nat, acts: seq<Action>, c: Member, d: Member)
    requires Sensible(cfg) && Safe(cfg, start) && OnTimeRun(cfg, start, acts)
    requires var s := Exec(cfg, Initial(start), acts); IsHolder(FrameOf(s, c)) && IsHolder(FrameOf(s, d))
    ensures c == d
  {
    RunKeepsHolds(cfg, start, acts, c);
    RunKeepsHolds(cfg, start, acts, d);
  }

  /** Then the unconditional DEL only ever takes away the caller's own, still running record. */
  lemma DeleteTakesOwnRecord(cfg: Config, start: nat, acts: seq<Action>, c: Member)
    requires Sensible(cfg) && Safe(cfg, start) && OnTimeRun(cfg, start, acts)
    requires FrameOf(Exec(cfg, Initial(start), acts), c).Leaving?
    ensures var s := Exec(cfg, Initial(start), acts);
            && Stored(s) && s.record.value.owner == c
            && Exec(cfg, Initial(start), acts + [Delete(c)]).record == None
  {
    RunKeepsHolds(cfg, start, acts, c);
    assert (acts + [Delete(c)])[..|acts|] == acts;
  }

  /** Once the function is over and the DEL has run, the lock is free for whoever asks next. */
  lemma CallEndsFree(cfg: Config, start: nat, acts: seq<Action>, c: Member, d: Member)
    requires Sensible(cfg) && Safe(cfg, start) && OnTimeRun(cfg, start, acts)
    requires var s := Exec(cfg, Initial(start), acts); FrameOf(s, c).Inside? && FrameOf(s, d).Out?
    ensures var s, t := Exec(cfg, Initial(start), acts), Exec(cfg, Initial(start), acts + [Return(c)] + [Delete(c)]);
            && s.record != None && s.record.value.owner == c
            && t == s.(record := None, frames := s.frames[c := Gone])
            && FrameOf(Step(cfg, t, Acquire(d)), d) == Inside(s.clock, s.clock)
            && Step(cfg, t, Acquire(d)).record == Some(Record(d, s.clock + cfg.duration))
  {
    RunKeepsHolds(cfg, start, acts, c);
    assert (acts + [Return(c)])[..|acts|] == acts;
    assert (acts + [Return(c)] + [Delete(c)])[..|acts| + 1] == acts + [Return(c)];
    var s := Exec(cfg, Initial(start), acts);
    assert s.frames[c := Leaving(FrameOf(s, c).extended)][c := Gone] == s.frames[c := Gone];
  }

  /** A caller that is not out has its timer's last firing no earlier than `at`. */
  predicate FiredSince(f: Frame, at: int) {
    !f.Out? && (f.Inside? ==> f.fired >= at)
  }

  lemma {:induction false} FiringStays(cfg: Config, s: State, more: seq<Action>, c: Member, at: int)
    requires FiredSince(FrameOf(s, c), at) && s.clock >= at
    ensures FiredSince(FrameOf(Exec(cfg, s, more), c), at) && Exec(cfg, s, more).clock >= at
  {
    if more != [] {
      FiringStays(cfg, s, more[..|more| - 1], c, at);
    }
  }

  lemma {:induction false} ExecConcat(cfg: Config, s: State, xs: seq<Action>, ys: seq<Action>)
    ensures Exec(cfg, s, xs + ys) == Exec(cfg, Exec(cfg, s, xs), ys)
  {
    if ys == [] {
      assert xs + ys == xs;
    } else {
      var n := |ys| - 1;
      assert (xs + ys)[..|xs + ys| - 1] == xs + ys[..n];
      ExecConcat(cfg, s, xs, ys[..n]);
    }
  }

  /** In any run a caller's heartbeat comes a full period after its SET and after its previous heartbeat. */
  lemma HeartbeatsKeepPeriod(cfg: Config, start: nat, acts: seq<Action>, a: Action, more: seq<Action>, c: Member)
    requires a == Acquire(c) || a == Fire(c)
    requires Step(cfg, Exec(cfg, Initial(start), acts), a) != Exec(cfg, Initial(start), acts)
    requires var t := Exec(cfg, Initial(start), acts + [a] + more); Step(cfg, t, Fire(c)) != t
    ensures Exec(cfg, Initial(start), acts + [a] + more).clock >= Exec(cfg, Initial(start), acts).clock + Gap(cfg)
  {
    var s := Exec(cfg, Initial(start), acts);
    assert (acts + [a])[..|acts|] == acts;
    ExecConcat(cfg, Initial(start), acts + [a], more);
    FiringStays(cfg, Step(cfg, s, a), more, c, s.clock);
  }

  /** drift: the share of the duration rounded to the nearest integer, halves up, and two more. */
  function Drift(duration: int, driftFactor: real): (drift: int)
    ensures (drift - 2) as real - 0.5 <= driftFactor * duration as real < (drift - 2) as real + 0.5
  {
    (driftFactor * duration as real + 0.5).Floor + 2
  }

  // ---------------------------------------------------------------- why the condition is exact

  /** In every run with timely heartbeats there is at most one holder at any time. */
  ghost predicate Exclusive(cfg: Config, start: nat) {
    forall acts, c, d ::
      OnTimeRun(cfg, start, acts)
      && IsHolder(FrameOf(Exec(cfg, Initial(start), acts), c)) && IsHolder(FrameOf(Exec(cfg, Initial(start), acts), d))
      ==> c == d
  }

  /** The lock excludes exactly when the configuration is safe. */
  lemma ExclusiveIffSafe(cfg: Config, start: nat)
    requires Sensible(cfg)
    ensures Exclusive(cfg, start) <==> Safe(cfg, start)
  {
    if Safe(cfg, start) {
      forall acts, c, d
        | OnTimeRun(cfg, start, acts)
          && IsHolder(FrameOf(Exec(cfg, Initial(start), acts), c))
          && IsHolder(FrameOf(Exec(cfg, Initial(start), acts), d))
        ensures c == d
      {
        AtMostOneHolder(cfg, start, acts, c, d);
      }
    } else {
      var acts := UnsafeHasTwoHolders(cfg, start);
      assert IsHolder(FrameOf(Exec(cfg, Initial(start), acts), 1));
    }
  }

  /** Any duration with the default drift factor, and a clock past the drift: a delay below the refresh interval. */
  lemma DefaultsExclusiveIff(duration: int, refreshInterval: int, delay: int, unit: int, start: nat)
    requires 0 <= refreshInterval < duration && delay >= 0 && unit >= 1 && Drift(duration, 0.01) <= start
    ensures Exclusive(Config(duration, Drift(duration, 0.01), refreshInterval, delay, unit), start)
       <==> delay < refreshInterval
  {
    var cfg := Config(duration, Drift(duration, 0.01), refreshInterval, delay, unit);
    ExclusiveIffSafe(cfg, start);
    SafeIffRefreshInTime(cfg, start);
  }

  lemma Extend(cfg: Config, start: nat, acts: seq<Action>, a: Action)
    requires OnTimeRun(cfg, start, acts) && OnTime(cfg, Exec(cfg, Initial(start), acts), a)
    ensures OnTimeRun(cfg, start, acts + [a])
    ensures Exec(cfg, Initial(start), acts + [a]) == Step(cfg, Exec(cfg, Initial(start), acts), a)
  {
    assert (acts + [a])[..|acts|] == acts;
  }

  /** Without the timely heartbeats no lease is long enough: a second caller gets in once it has run out. */
  lemma LateHeartbeatHasTwoHolders(cfg: Config, start: nat) returns (acts: seq<Action>)
    requires Sensible(cfg)
    ensures var s := Exec(cfg, Initial(start), acts); IsHolder(FrameOf(s, 1)) && IsHolder(FrameOf(s, 2))
  {
    acts := [Acquire(1), Tick(cfg.duration), Acquire(2)];
    assert acts[..2][..1] == acts[..1] == [Acquire(1)];
    assert Exec(cfg, Initial(start), acts[..1]) == Acquired(cfg, Initial(start), 1);
    assert Exec(cfg, Initial(start), acts[..2]).clock == start + cfg.duration;
  }

  /** An unsafe configuration has a run with timely heartbeats and two holders. */
  lemma UnsafeHasTwoHolders(cfg: Config, start: nat) returns (acts: seq<Action>)
    requires Sensible(cfg) && !Safe(cfg, start)
    ensures OnTimeRun(cfg, start, acts)
    ensures var s := Exec(cfg, Initial(start), acts); IsHolder(FrameOf(s, 1)) && IsHolder(FrameOf(s, 2))
  {
    acts := [];
    Extend(cfg, start, acts, Acquire(1));
    acts := acts + [Acquire(1)];
    if cfg.delay >= cfg.refreshInterval {
      Extend(cfg, start, acts, Tick(cfg.duration));
      acts := acts + [Tick(cfg.duration)];
    } else {
      acts := EarlyHeartbeatLosesLease(cfg, start);
    }
    Extend(cfg, start, acts, Acquire(2));
    acts := acts + [Acquire(2)];
  }

  /** The first heartbeat, sent as early as the timer allows, shortens the lease. */
  lemma EarlyHeartbeatLosesLease(cfg: Config, start: nat) returns (acts: seq<Action>)
    requires Sensible(cfg) && !Safe(cfg, start) && cfg.delay < cfg.refreshInterval
    ensures OnTimeRun(cfg, start, acts)
    ensures var s := Exec(cfg, Initial(start), acts); !Stored(s) && FrameOf(s, 1).Inside? && FrameOf(s, 2).Out?
  {
    var sent := start + Gap(cfg);
    var ttl := sent + cfg.duration - cfg.drift;
    acts := FirstHeartbeat(cfg, start);
    if ttl > 0 {
      var wait := cfg.unit * ttl;
      Stretch(cfg.unit, ttl, ttl);
      Extend(cfg, start, acts, Tick(wait));
      acts := acts + [Tick(wait)];
    }
  }

  /** The run up to that heartbeat's arrival. */
  lemma FirstHeartbeat(cfg: Config, start: nat) returns (acts: seq<Action>)
    requires Sensible(cfg) && cfg.delay < cfg.refreshInterval
    ensures OnTimeRun(cfg, start, acts)
    ensures var sent := start + Gap(cfg);
            var ttl := sent + cfg.duration - cfg.drift;
            Exec(cfg, Initial(start), acts)
            == State(sent, if ttl <= 0 then None else Some(Record(1, sent + cfg.unit * ttl)),
                     map[1 := Inside(sent, sent)], {})
  {
    var sent := start + Gap(cfg);
    var record := Some(Record(1, start + cfg.duration));
    Extend(cfg, start, [], Acquire(1));
    acts := [Acquire(1)];
    var s1 := State(start, record, map[1 := Inside(start, start)], {});
    assert [] + [Acquire(1)] == acts && Exec(cfg, Initial(start), acts) == s1;
    Extend(cfg, start, acts, Tick(Gap(cfg)));
    acts := acts + [Tick(Gap(cfg))];
    var s2 := State(sent, record, map[1 := Inside(start, start)], {});
    assert Exec(cfg, Initial(start), acts) == s2;
    Extend(cfg, start, acts, Fire(1));
    acts := acts + [Fire(1)];
    var s3 := State(sent, record, map[1 := Inside(sent, start)], {(1, sent)});
    assert Exec(cfg, Initial(start), acts) == s3;
    Extend(cfg, start, acts, Arrive(1, sent));
    acts := acts + [Arrive(1, sent)];
    assert s3.flights - {(1, sent)} == {};
    assert Exec(cfg, Initial(start), acts) == Arrived(cfg, s3, 1, sent);
  }
}
