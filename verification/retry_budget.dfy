/**
 * The retry budget of one window bucket, over every interleaving of its callers.
 *
 * The bucket's key is fixed by the window number w; its time to live is given to EXPIRE, whose
 * unit is seconds, as the window size in milliseconds.
 */
module RetryBudget {
  import opened SortedSets

  /** A window size that is not configured is zero. */
  datatype Config = Config(window: nat, windowSize: nat, budget: nat)

  datatype Bucket = Bucket(count: int, expiry: Option<int>)

  datatype Frame =
    | Away
    | Keyed       // read the clock inside the window
    | Missing     // EXISTS said no
    | Zeroed      // HSET attempts 0 is done, EXPIRE is not
    | Located     // about to HINCRBY

  datatype State = State(
    clock: int,
    bucket: Option<Bucket>,
    frames: map<Member, Frame>,
    invocations: nat,   // increments that stayed within the budget
    zeroings: nat,      // HSET attempts 0
    revivals: nat)      // increments that found no bucket and so created one

  datatype Action =
    | Tick(d: nat)
    | ReadClock(c: Member)
    | Exists(c: Member)
    | Zero(c: Member)
    | SetTtl(c: Member)
    | Count(c: Member)

  function Initial(clock: int): State {
    State(clock, None, map[], 0, 0, 0)
  }

  function FrameOf(s: State, c: Member): Frame {
    if c in s.frames then s.frames[c] else Away
  }

  function Goto(s: State, c: Member, f: Frame): State {
    s.(frames := s.frames[c := f])
  }

  /** The bucket as the store answers for it: gone once its expiry is reached. */
  function Current(s: State): Option<Bucket> {
    if s.bucket != None && s.bucket.value.expiry != None && s.bucket.value.expiry.value <= s.clock then None
    else s.bucket
  }

  /** The length of a window: windowSize || 1. */
  function Length(cfg: Config): nat {
    if cfg.windowSize == 0 then 1 else cfg.windowSize
  }

  /** Math.floor(Date.now() / Length) is this bucket's window. */
  predicate InWindow(cfg: Config, clock: int) {
    cfg.window * Length(cfg) <= clock < (cfg.window + 1) * Length(cfg)
  }

  /** The division of the clock by the length, rounded down, tells the window; zero and a missing size count as one. */
  lemma WindowIsFloor(cfg: Config, clock: int)
    ensures InWindow(cfg, clock) <==> clock / (if cfg.windowSize == 0 then 1 else cfg.windowSize) == cfg.window
  {
    var n := Length(cfg);
    var q := clock / n;
    assert q * n <= clock < (q + 1) * n;
    if q < cfg.window {
      Scaled(q + 1, cfg.window, n);
    } else if q > cfg.window {
      Scaled(cfg.window + 1, q, n);
    }
  }

  lemma Scaled(a: int, b: int, n: nat)
    requires a <= b
    ensures a * n <= b * n
  {
    assert b * n - a * n == (b - a) * n;
  }

  function Zeroing(s: State, c: Member): State {
    var kept := if Current(s) == None then None else Current(s).value.expiry;
    Goto(s, c, Zeroed).(bucket := Some(Bucket(0, kept)), zeroings := s.zeroings + 1)
  }

  /** EXPIRE; nothing to live at all deletes the bucket. */
  function TtlSet(cfg: Config, s: State, c: Member): State {
    if Current(s) == None then Goto(s, c, Located)
    else if cfg.windowSize == 0 then Goto(s, c, Located).(bucket := None)
    else Goto(s, c, Located).(bucket := Some(Bucket(s.bucket.value.count, Some(s.clock + 1000 * cfg.windowSize))))
  }

  /** HINCRBY: the call goes ahead iff the new count is within the budget. */
  function Counted(cfg: Config, s: State, c: Member): State {
    var found := Current(s) != None;
    var bucket := if found then s.bucket.value.(count := s.bucket.value.count + 1) else Bucket(1, None);
    Goto(s, c, Away).(
      bucket := Some(bucket),
      invocations := if bucket.count <= cfg.budget then s.invocations + 1 else s.invocations,
      revivals := if found then s.revivals else s.revivals + 1)
  }

  function Step(cfg: Config, s: State, a: Action): State {
    match a
    case Tick(d) => s.(clock := s.clock + d)
    case ReadClock(c) => if FrameOf(s, c).Away? && InWindow(cfg, s.clock) then Goto(s, c, Keyed) else s
    case Exists(c) => if FrameOf(s, c).Keyed? then Goto(s, c, if Current(s) == None then Missing else Located) else s
    case Zero(c) => if FrameOf(s, c).Missing? then Zeroing(s, c) else s
    case SetTtl(c) => if FrameOf(s, c).Zeroed? then TtlSet(cfg, s, c) else s
    case Count(c) => if FrameOf(s, c).Located? then Counted(cfg, s, c) else s
  }

  function Exec(cfg: Config, s: State, acts: seq<Action>): State {
    if acts == [] then s else Step(cfg, Exec(cfg, s, acts[..|acts| - 1]), acts[|acts| - 1])
  }

  function Min(a: int, b: int): int {
    if a < b then a else b
  }

  /** Every zeroing or revival opens an epoch of at most `budget` invocations; the stored count says how far it got. */
  ghost predicate WithinEpochs(cfg: Config, s: State) {
    match s.bucket
    case None => s.invocations <= cfg.budget * (s.zeroings + s.revivals)
    case Some(b) =>
      && s.zeroings + s.revivals >= 1
      && s.invocations <= cfg.budget * (s.zeroings + s.revivals - 1) + Min(b.count, cfg.budget)
  }

  /**
   * The first time at which the bucket may be lost.  EXPIRE keeps it for windowSize seconds, a
   * thousand windows; with no window size it deletes the bucket in its own window.
   */
  function LostFrom(cfg: Config): int {
    if cfg.windowSize == 0 then cfg.window else (cfg.window + 1000) * cfg.windowSize
  }

  /** The bucket only expires then, and a caller that saw it knows it was there. */
  predicate ExpiresLate(cfg: Config, s: State) {
    && (s.bucket != None ==> s.clock >= cfg.window * Length(cfg))
    && (s.invocations > 0 ==> s.clock >= cfg.window * Length(cfg))
    && (cfg.windowSize > 0 ==>
         && (s.bucket != None && s.bucket.value.expiry != None ==> s.bucket.value.expiry.value >= LostFrom(cfg))
         && (s.revivals > 0 ==> s.clock >= LostFrom(cfg))
         && (s.zeroings > 0 || s.revivals > 0 <==> s.bucket != None))
  }

  predicate Placed(cfg: Config, s: State, c: Member) {
    && (!FrameOf(s, c).Away? ==> s.clock >= cfg.window * Length(cfg))
    && (cfg.windowSize > 0 && (FrameOf(s, c).Zeroed? || FrameOf(s, c).Located?) ==> s.bucket != None)
  }

  lemma StepKeepsEpochs(cfg: Config, s: State, a: Action)
    requires WithinEpochs(cfg, s)
    ensures WithinEpochs(cfg, Step(cfg, s, a))
  {
    var s' := Step(cfg, s, a);
    var e, e' := s.zeroings + s.revivals, s'.zeroings + s'.revivals;
    assert e' == e || e' == e + 1;
    assert cfg.budget * (e + 1) == cfg.budget * e + cfg.budget;
    assert cfg.budget * e == cfg.budget * (e - 1) + cfg.budget;
  }

  lemma StepKeepsPlaces(cfg: Config, s: State, a: Action, c: Member)
    requires Placed(cfg, s, c)
    ensures Placed(cfg, Step(cfg, s, a), c)
  {
  }

  lemma StepKeepsExpiry(cfg: Config, s: State, a: Action)
    requires ExpiresLate(cfg, s)
    requires !a.Tick? ==> Placed(cfg, s, a.c)
    ensures ExpiresLate(cfg, Step(cfg, s, a))
  {
    assert (cfg.window + 1000) * cfg.windowSize == cfg.window * cfg.windowSize + 1000 * cfg.windowSize;
  }

  lemma {:induction false} RunKeepsEpochs(cfg: Config, clock: int, acts: seq<Action>)
    ensures WithinEpochs(cfg, Exec(cfg, Initial(clock), acts))
  {
    if acts != [] {
      var n := |acts| - 1;
      RunKeepsEpochs(cfg, clock, acts[..n]);
      StepKeepsEpochs(cfg, Exec(cfg, Initial(clock), acts[..n]), acts[n]);
    }
  }

  lemma {:induction false} RunKeepsExpiry(cfg: Config, clock: int, acts: seq<Action>, c: Member)
    ensures var s := Exec(cfg, Initial(clock), acts);
            ExpiresLate(cfg, s) && Placed(cfg, s, c)
  {
    if acts != [] {
      var n := |acts| - 1;
      var s := Exec(cfg, Initial(clock), acts[..n]);
      RunKeepsExpiry(cfg, clock, acts[..n], c);
      if !acts[n].Tick? {
        RunKeepsExpiry(cfg, clock, acts[..n], acts[n].c);
      }
      StepKeepsPlaces(cfg, s, acts[n], c);
      StepKeepsExpiry(cfg, s, acts[n]);
    }
  }

  /** In every interleaving the invocations are at most the budget for each zeroing or revival of the bucket. */
  lemma BudgetPerEpoch(cfg: Config, clock: int, acts: seq<Action>)
    ensures var s := Exec(cfg, Initial(clock), acts);
            s.invocations <= cfg.budget * (s.zeroings + s.revivals)
  {
    RunKeepsEpochs(cfg, clock, acts);
    EpochsBound(cfg, Exec(cfg, Initial(clock), acts));
  }

  lemma EpochsBound(cfg: Config, s: State)
    requires WithinEpochs(cfg, s)
    ensures s.invocations <= cfg.budget * (s.zeroings + s.revivals)
  {
    var e := s.zeroings + s.revivals;
    assert cfg.budget * e == cfg.budget * (e - 1) + cfg.budget;
  }

  /** Until the bucket may be lost only the zeroings count. */
  lemma BudgetUntilLost(cfg: Config, clock: int, acts: seq<Action>)
    requires Exec(cfg, Initial(clock), acts).clock < LostFrom(cfg)
    ensures var s := Exec(cfg, Initial(clock), acts);
            && s.invocations <= cfg.budget * s.zeroings
            && (s.zeroings <= 1 ==> s.invocations <= cfg.budget)
            && Current(s) == s.bucket
  {
    RunKeepsExpiry(cfg, clock, acts, 0);
    BudgetPerEpoch(cfg, clock, acts);
  }

  // ---------------------------------------------------------------- exactly how long the budget holds

  /** In every run that ends before time c the invocations are at most the budget for each zeroing. */
  ghost predicate HoldsBefore(cfg: Config, c: int) {
    forall clock, acts ::
      var s := Exec(cfg, Initial(clock), acts); s.clock < c ==> s.invocations <= cfg.budget * s.zeroings
  }

  /** That is so exactly if there is no budget to exceed or c is not past the time the bucket may be lost. */
  lemma BudgetHoldsIff(cfg: Config, c: int)
    ensures HoldsBefore(cfg, c) <==> cfg.budget == 0 || c <= LostFrom(cfg)
  {
    if cfg.budget == 0 || c <= LostFrom(cfg) {
      forall clock, acts | Exec(cfg, Initial(clock), acts).clock < c
        ensures Exec(cfg, Initial(clock), acts).invocations <= cfg.budget * Exec(cfg, Initial(clock), acts).zeroings
      {
        BudgetPerEpoch(cfg, clock, acts);
        if c <= LostFrom(cfg) {
          BudgetUntilLost(cfg, clock, acts);
        }
      }
    } else {
      var acts;
      if cfg.windowSize == 0 {
        acts := UnsetWindowLosesItsBucket(cfg);
      } else {
        acts := StaleIncrementRevives(cfg);
      }
      assert Exec(cfg, Initial(Opening(cfg)), acts).clock < c;
    }
  }

  // ---------------------------------------------------------------- the runs that exceed it

  function Opening(cfg: Config): int {
    cfg.window * Length(cfg)
  }

  lemma Extend(cfg: Config, acts: seq<Action>, a: Action)
    ensures Exec(cfg, Initial(Opening(cfg)), acts + [a]) == Step(cfg, Exec(cfg, Initial(Opening(cfg)), acts), a)
  {
    assert (acts + [a])[..|acts|] == acts;
  }

  /** The state of a run of callers 1 and 2. */
  predicate Stands(s: State, clock: int, bucket: Option<Bucket>, one: Frame, two: Frame, tally: (nat, nat, nat)) {
    && s.clock == clock && s.bucket == bucket && FrameOf(s, 1) == one && FrameOf(s, 2) == two
    && (s.invocations, s.zeroings, s.revivals) == tally
  }

  /** Caller 1 sees no bucket and will create it; caller 2 has read the clock. */
  lemma TwoCallers(cfg: Config) returns (acts: seq<Action>)
    ensures Stands(Exec(cfg, Initial(Opening(cfg)), acts), Opening(cfg), None, Missing, Keyed, (0, 0, 0))
  {
    assert InWindow(cfg, Opening(cfg));
    acts := [];
    Extend(cfg, acts, ReadClock(1));
    acts := acts + [ReadClock(1)];
    Extend(cfg, acts, ReadClock(2));
    acts := acts + [ReadClock(2)];
    Extend(cfg, acts, Exists(1));
    acts := acts + [Exists(1)];
  }

  /** A caller that finds the bucket spends k more of its budget. */
  lemma {:induction false} Spend(cfg: Config, before: seq<Action>, c: Member, k: nat) returns (acts: seq<Action>)
    requires var s := Exec(cfg, Initial(Opening(cfg)), before);
             && s.clock == Opening(cfg) && FrameOf(s, c).Away?
             && Current(s) == s.bucket != None && s.bucket.value.count + k <= cfg.budget
    ensures var s, t := Exec(cfg, Initial(Opening(cfg)), before), Exec(cfg, Initial(Opening(cfg)), acts);
            && t.clock == s.clock && t.bucket == Some(Bucket(s.bucket.value.count + k, s.bucket.value.expiry))
            && (forall d :: FrameOf(t, d) == FrameOf(s, d))
            && t.invocations == s.invocations + k && t.zeroings == s.zeroings && t.revivals == s.revivals
  {
    acts := before;
    if k > 0 {
      assert InWindow(cfg, Opening(cfg));
      acts := Spend(cfg, before, c, k - 1);
      Extend(cfg, acts, ReadClock(c));
      acts := acts + [ReadClock(c)];
      Extend(cfg, acts, Exists(c));
      acts := acts + [Exists(c)];
      Extend(cfg, acts, Count(c));
      acts := acts + [Count(c)];
    }
  }

  /** Caller c, which has found or made the bucket, uses it up. */
  lemma SpendAll(cfg: Config, before: seq<Action>, c: Member) returns (acts: seq<Action>)
    requires cfg.budget > 0
    requires var s := Exec(cfg, Initial(Opening(cfg)), before);
             && s.clock == Opening(cfg) && FrameOf(s, c).Located?
             && Current(s) == s.bucket && (s.bucket != None ==> s.bucket.value.count == 0)
    ensures var s, t := Exec(cfg, Initial(Opening(cfg)), before), Exec(cfg, Initial(Opening(cfg)), acts);
            && t.clock == s.clock
            && t.bucket == Some(Bucket(cfg.budget, if s.bucket == None then None else s.bucket.value.expiry))
            && (forall d :: FrameOf(t, d) == if d == c then Away else FrameOf(s, d))
            && t.invocations == s.invocations + cfg.budget && t.zeroings == s.zeroings
            && t.revivals == s.revivals + if s.bucket == None then 1 else 0
  {
    Extend(cfg, before, Count(c));
    acts := Spend(cfg, before + [Count(c)], c, cfg.budget - 1);
  }

  /** A raced creation zeroes the bucket twice, and twice the budget gets through. */
  lemma RacedCreationDoublesTheBudget(cfg: Config) returns (acts: seq<Action>)
    requires cfg.windowSize > 0 && cfg.budget > 0
    ensures var s := Exec(cfg, Initial(Opening(cfg)), acts);
            && InWindow(cfg, s.clock) && s.invocations == 2 * cfg.budget && s.zeroings == 2 && s.revivals == 0
  {
    acts := TwoCallers(cfg);
    Extend(cfg, acts, Exists(2));
    acts := acts + [Exists(2)];
    Extend(cfg, acts, Zero(1));
    acts := acts + [Zero(1)];
    Extend(cfg, acts, SetTtl(1));
    acts := acts + [SetTtl(1)];
    acts := SpendAll(cfg, acts, 1);
    Extend(cfg, acts, Zero(2));
    acts := acts + [Zero(2)];
    Extend(cfg, acts, SetTtl(2));
    acts := acts + [SetTtl(2)];
    acts := SpendAll(cfg, acts, 2);
  }

  /** Caller 1 has created the bucket and used it up; caller 2 has found it and is about to increment. */
  lemma UsedUp(cfg: Config) returns (acts: seq<Action>)
    requires cfg.windowSize > 0 && cfg.budget > 0
    ensures Stands(Exec(cfg, Initial(Opening(cfg)), acts), Opening(cfg), Some(Bucket(cfg.budget, Some(LostFrom(cfg)))),
                   Away, Located, (cfg.budget, 1, 0))
  {
    assert LostFrom(cfg) == Opening(cfg) + 1000 * cfg.windowSize;
    acts := TwoCallers(cfg);
    Extend(cfg, acts, Zero(1));
    acts := acts + [Zero(1)];
    Extend(cfg, acts, SetTtl(1));
    acts := acts + [SetTtl(1)];
    Extend(cfg, acts, Exists(2));
    acts := acts + [Exists(2)];
    acts := SpendAll(cfg, acts, 1);
  }

  /** An increment that outlives the bucket starts the count again without any zeroing. */
  lemma StaleIncrementRevives(cfg: Config) returns (acts: seq<Action>)
    requires cfg.windowSize > 0 && cfg.budget > 0
    ensures var s := Exec(cfg, Initial(Opening(cfg)), acts);
            && s.clock == LostFrom(cfg) && s.invocations == cfg.budget + 1 && s.zeroings == 1 && s.revivals == 1
  {
    assert LostFrom(cfg) == Opening(cfg) + 1000 * cfg.windowSize;
    acts := UsedUp(cfg);
    Extend(cfg, acts, Tick(1000 * cfg.windowSize));
    acts := acts + [Tick(1000 * cfg.windowSize)];
    Extend(cfg, acts, Count(2));
    acts := acts + [Count(2)];
  }

  /** With no window size EXPIRE deletes the bucket within its own window of one millisecond. */
  lemma UnsetWindowLosesItsBucket(cfg: Config) returns (acts: seq<Action>)
    requires cfg.windowSize == 0 && cfg.budget > 0
    ensures var s := Exec(cfg, Initial(Opening(cfg)), acts);
            && s.clock == LostFrom(cfg) && s.invocations == 2 * cfg.budget && s.zeroings == 1
  {
    acts := TwoCallers(cfg);
    Extend(cfg, acts, Zero(1));
    acts := acts + [Zero(1)];
    Extend(cfg, acts, Exists(2));
    acts := acts + [Exists(2)];
    acts := SpendAll(cfg, acts, 2);
    Extend(cfg, acts, SetTtl(1));
    acts := acts + [SetTtl(1)];
    acts := SpendAll(cfg, acts, 1);
  }

  // ---------------------------------------------------------------- calls one after another

  /** HSET gives a bucket that is there a new count and leaves its expiry; a new bucket has none. */
  lemma ZeroingKeepsExpiry(cfg: Config, s: State, c: Member)
    requires FrameOf(s, c).Missing?
    ensures Step(cfg, s, Zero(c)).bucket
         == Some(Bucket(0, if Current(s) == None then None else s.bucket.value.expiry))
  {
  }

  /** One call with nothing in between; what it has no need of does nothing. */
  function WholeCall(c: Member): seq<Action> {
    [ReadClock(c)] + [Exists(c)] + [Zero(c)] + [SetTtl(c)] + [Count(c)]
  }

  lemma Snoc(cfg: Config, s: State, acts: seq<Action>, a: Action)
    ensures Exec(cfg, s, acts + [a]) == Step(cfg, Exec(cfg, s, acts), a)
  {
    assert (acts + [a])[..|acts|] == acts;
  }

  lemma WholeCallRuns(cfg: Config, s: State, c: Member)
    ensures Exec(cfg, s, WholeCall(c))
         == var located := Step(cfg, Step(cfg, s, ReadClock(c)), Exists(c));
            Step(cfg, Step(cfg, Step(cfg, located, Zero(c)), SetTtl(c)), Count(c))
  {
    Snoc(cfg, s, [], ReadClock(c));
    assert [] + [ReadClock(c)] == [ReadClock(c)];
    Snoc(cfg, s, [ReadClock(c)], Exists(c));
    Snoc(cfg, s, [ReadClock(c)] + [Exists(c)], Zero(c));
    Snoc(cfg, s, [ReadClock(c)] + [Exists(c)] + [Zero(c)], SetTtl(c));
    Snoc(cfg, s, [ReadClock(c)] + [Exists(c)] + [Zero(c)] + [SetTtl(c)], Count(c));
  }

  function CountOf(s: State): int {
    if s.bucket == None then 0 else s.bucket.value.count
  }

  /** After n whole calls in one window: everyone is away again, the count is n, the rest follows. */
  ghost predicate Spent(cfg: Config, s: State, n: nat) {
    && (forall c :: FrameOf(s, c).Away?) && CountOf(s) == n && s.revivals == 0
    && s.invocations == Min(n, cfg.budget) && s.zeroings == Min(n, 1)
    && (s.bucket == None <==> n == 0)
    && (s.bucket != None ==> s.bucket.value.expiry != None && s.bucket.value.expiry.value >= LostFrom(cfg))
  }

  /** A call that finds the bucket only increments it. */
  lemma WholeCallFinds(cfg: Config, s: State, c: Member)
    requires FrameOf(s, c).Away? && InWindow(cfg, s.clock) && Current(s) == s.bucket != None
    ensures var n := s.bucket.value.count + 1;
            Exec(cfg, s, WholeCall(c))
            == s.(frames := s.frames[c := Away], bucket := Some(Bucket(n, s.bucket.value.expiry)),
                  invocations := s.invocations + if n <= cfg.budget then 1 else 0)
  {
    WholeCallRuns(cfg, s, c);
    var located := Goto(Goto(s, c, Keyed), c, Located);
    assert Step(cfg, Step(cfg, s, ReadClock(c)), Exists(c)) == located;
    assert located.frames[c := Away] == s.frames[c := Away];
  }

  /** A call that finds no bucket creates it, sets its expiry and counts itself. */
  lemma WholeCallCreates(cfg: Config, s: State, c: Member)
    requires FrameOf(s, c).Away? && InWindow(cfg, s.clock) && s.bucket == None && cfg.windowSize > 0
    ensures Exec(cfg, s, WholeCall(c))
         == s.(frames := s.frames[c := Away], bucket := Some(Bucket(1, Some(s.clock + 1000 * cfg.windowSize))),
               zeroings := s.zeroings + 1, invocations := s.invocations + if 1 <= cfg.budget then 1 else 0)
  {
    WholeCallRuns(cfg, s, c);
    var missing := Goto(Goto(s, c, Keyed), c, Missing);
    assert Step(cfg, Step(cfg, s, ReadClock(c)), Exists(c)) == missing;
    var expiry := Some(s.clock + 1000 * cfg.windowSize);
    assert TtlSet(cfg, Zeroing(missing, c), c)
        == s.(frames := s.frames[c := Located], bucket := Some(Bucket(0, expiry)), zeroings := s.zeroings + 1);
    assert s.frames[c := Located][c := Away] == s.frames[c := Away];
  }

  /** The next call adds one to the count, and goes ahead exactly if the budget is not used up. */
  lemma WholeCallSpends(cfg: Config, s: State, c: Member, n: nat)
    requires cfg.windowSize > 0 && Spent(cfg, s, n) && InWindow(cfg, s.clock)
    ensures var t := Exec(cfg, s, WholeCall(c));
            && Spent(cfg, t, n + 1) && t.clock == s.clock
            && (t.invocations == s.invocations + 1 <==> n < cfg.budget)
  {
    assert LostFrom(cfg) == cfg.window * cfg.windowSize + 1000 * cfg.windowSize;
    assert (cfg.window + 1) * cfg.windowSize == cfg.window * cfg.windowSize + cfg.windowSize;
    assert FrameOf(s, c).Away?;
    if n == 0 {
      WholeCallCreates(cfg, s, c);
    } else {
      WholeCallFinds(cfg, s, c);
    }
    forall d ensures FrameOf(Exec(cfg, s, WholeCall(c)), d).Away? {
      assert FrameOf(s, d).Away?;
    }
  }

  /** Callers one after another, each some time after the one before. */
  datatype Visit = Visit(c: Member, wait: nat)

  function Visits(visits: seq<Visit>): seq<Action> {
    if visits == [] then []
    else
      var last := visits[|visits| - 1];
      Visits(visits[..|visits| - 1]) + [Tick(last.wait)] + WholeCall(last.c)
  }

  function Waits(visits: seq<Visit>): nat {
    if visits == [] then 0 else Waits(visits[..|visits| - 1]) + visits[|visits| - 1].wait
  }

  lemma {:induction false} ExecConcat(cfg: Config, s: State, xs: seq<Action>, ys: seq<Action>)
    ensures Exec(cfg, s, xs + ys) == Exec(cfg, Exec(cfg, s, xs), ys)
  {
    if ys == [] {
      assert xs + ys == xs;
    } else {
      var n := |ys| - 1;
      assert (xs + ys)[..|xs + ys| - 1] == xs + ys[..n];
      ExecConcat(cfg, s, xs, ys[..n]);
    }
  }

  /** Of n calls one after another in one window exactly as many go ahead as the budget allows, the first ones. */
  lemma {:induction false} SequentialCallsUseTheBudget(cfg: Config, clock: int, visits: seq<Visit>)
    requires cfg.windowSize > 0 && InWindow(cfg, clock) && InWindow(cfg, clock + Waits(visits))
    ensures var s := Exec(cfg, Initial(clock), Visits(visits));
            Spent(cfg, s, |visits|) && s.clock == clock + Waits(visits)
  {
    if visits != [] {
      var n := |visits| - 1;
      var last := visits[n];
      SequentialCallsUseTheBudget(cfg, clock, visits[..n]);
      var s := Exec(cfg, Initial(clock), Visits(visits[..n]));
      ExecConcat(cfg, Initial(clock), Visits(visits[..n]) + [Tick(last.wait)], WholeCall(last.c));
      Snoc(cfg, Initial(clock), Visits(visits[..n]), Tick(last.wait));
      WaitingKeeps(cfg, s, last.wait, n);
      WholeCallSpends(cfg, Step(cfg, s, Tick(last.wait)), last.c, n);
    }
  }

  lemma WaitingKeeps(cfg: Config, s: State, d: nat, n: nat)
    requires Spent(cfg, s, n)
    ensures Spent(cfg, Step(cfg, s, Tick(d)), n)
  {
    forall c ensures FrameOf(Step(cfg, s, Tick(d)), c).Away? {
      assert FrameOf(s, c).Away?;
    }
  }
}
