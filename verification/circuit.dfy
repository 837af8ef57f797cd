/**
 * The circuit breaker for calls that do not overlap, against a machine that only remembers the
 * outcomes since its newest bucket was created.
 *
 * A half-open call does not wait for its canary, so canaries of this and of earlier calls go on in
 * the background.  What they do to the store is a list of `Background` events, and such a list may
 * come before every command of a call whose effect could depend on it.
 */
module Circuit {
  import opened SortedSets
  import opened RedisStore

  datatype Mode = Closed | HalfOpen | Open

  datatype Strategy = Volume | Percentage

  datatype Config = Config(
    strategy: Strategy,
    threshold: real,
    minimumFailures: int,
    interval: int,
    retries: nat,
    halfOpenLimit: int)

  /** The stored breaker: its registry state, its buckets by creation time, and their hashes. */
  datatype State = State(mode: Mode, timeline: ZSet, hashes: map<Member, Hash>, nextUid: Member)

  /** What a canary nobody waits for may do. */
  datatype Background = NewBucket(at: int) | InFlightMoved(b: Member, d: int) | Rejected(b: Member)

  /**
   * The clock readings of one round of getActiveBucket, the lookup's and, failing that, the
   * creation's, each with what went on in the background before it.
   */
  datatype Reading = Reading(before: seq<Background>, look: int, between: seq<Background>, create: int)

  /** One call: whether the function succeeds, every clock reading made for it, and the background. */
  datatype Call = Call(
    ok: bool,
    idle: seq<Background>,        // since the previous call
    gateAt: int,
    gate: seq<Reading>,
    probing: seq<Background>,     // before an awaited canary counts itself
    canaryAt: int,
    outcome: seq<Reading>,
    recording: seq<Background>,   // between finding the bucket and counting the outcome
    failedAt: int,
    recovery: seq<Reading>,       // the same for a success whose bucket was lost, which onError then counts
    recovering: seq<Background>,
    recoveredAt: int,
    final: seq<Reading>)

  datatype Reply = Returned | Threw | Tripped | Refused | Lost

  // ---------------------------------------------------------------- hashes

  function HashOf(s: State, b: Member): Hash {
    HashAt(s.hashes, b)
  }

  /** HINCRBY. */
  function Incremented(s: State, b: Member, f: Field, d: int): State {
    s.(hashes := s.hashes[b := HashOf(s, b)[f := Get(HashOf(s, b), f) + d]])
  }

  const FreshHash: Hash := map[InFlight := 0, Success := 0, Failure := 0, Rejection := 0, LastFailure := 0]

  // ---------------------------------------------------------------- buckets

  /** onExpired: a fresh bucket, stamped with the clock. */
  function Created(s: State, t: int): State {
    State(s.mode, ZAdd(s.timeline, s.nextUid, t), s.hashes[s.nextUid := FreshHash], s.nextUid + 1)
  }

  function Disturbance(s: State, e: Background): State {
    match e
    case NewBucket(at) => Created(s, at)
    case InFlightMoved(b, d) => Incremented(s, b, InFlight, d)
    case Rejected(b) => Incremented(s, b, Rejection, 1)
  }

  function Disturbed(s: State, evs: seq<Background>): State
    decreases |evs|
  {
    if evs == [] then s else Disturbed(Disturbance(s, evs[0]), evs[1..])
  }

  ghost function ActiveAt(cfg: Config, s: State, now: int): Option<Member> {
    NewestIn(s.timeline, now - cfg.interval, now)
  }

  /** getActiveBucket: look, create and look again, until the attempts run out. */
  ghost function ActiveBucket(cfg: Config, s: State, attempt: nat, rs: seq<Reading>): (State, Option<Member>)
    requires |rs| >= cfg.retries
    decreases cfg.retries - attempt
  {
    if attempt >= cfg.retries then
      (s, None)
    else
      var s1 := Disturbed(s, rs[attempt].before);
      match ActiveAt(cfg, s1, rs[attempt].look)
      case Some(b) => (s1, Some(b))
      case None =>
        ActiveBucket(cfg, Created(Disturbed(s1, rs[attempt].between), rs[attempt].create), attempt + 1, rs)
  }

  // ---------------------------------------------------------------- thresholds

  /** isThresholdExceeded; a ratio of no calls at all is never exceeded. */
  predicate Exceeded(cfg: Config, failure: int, success: int) {
    && failure >= cfg.minimumFailures
    && match cfg.strategy
       case Volume => failure as real >= cfg.threshold
       case Percentage => failure + success != 0 && failure as real / (failure + success) as real >= cfg.threshold
  }

  predicate AllowCanary(cfg: Config, inFlight: int, lastFailure: int, now: int) {
    cfg.halfOpenLimit >= inFlight || now - cfg.interval > lastFailure
  }

  // ---------------------------------------------------------------- a call

  datatype Gate = Pass | Stop | Broken

  /** onClosed. */
  ghost function PassClosed(cfg: Config, s: State, call: Call): (State, Gate)
    requires |call.gate| >= cfg.retries
  {
    var (s1, b) := ActiveBucket(cfg, s, 0, call.gate);
    if b == None then (s1, Broken) else (Incremented(s1, b.value, InFlight, 1), Pass)
  }

  /** onHalfOpen, waited for. */
  ghost function Canary(cfg: Config, s: State, call: Call): (State, Gate)
    requires |call.gate| >= cfg.retries
  {
    var (s1, b) := ActiveBucket(cfg, s, 0, call.gate);
    if b == None then
      (s1, Broken)
    else
      var lastFailure := Get(HashOf(s1, b.value), LastFailure);
      var s2 := Incremented(Disturbed(s1, call.probing), b.value, InFlight, 1);
      if AllowCanary(cfg, Get(HashOf(s2, b.value), InFlight), lastFailure, call.canaryAt) then
        (s2, Pass)
      else
        (Incremented(Incremented(s2, b.value, InFlight, -1), b.value, Rejection, 1), Stop)
  }

  /** onOpen. */
  ghost function PassOpen(cfg: Config, s: State, call: Call): (State, Gate)
    requires |call.gate| >= cfg.retries
  {
    match ActiveAt(cfg, s, call.gateAt)
    case Some(b) => (Incremented(s, b, Rejection, 1), Stop)
    case None => Canary(cfg, s.(mode := HalfOpen), call)
  }

  /** The gate; a half-open call starts its canary, which joins the background, and goes on. */
  ghost function Enter(cfg: Config, s: State, call: Call): (State, Gate)
    requires |call.gate| >= cfg.retries
  {
    var s1 := Disturbed(s, call.idle);
    match s1.mode
    case Closed => PassClosed(cfg, s1, call)
    case HalfOpen => (s1, Pass)
    case Open => PassOpen(cfg, s1, call)
  }

  /** The MULTI of onError: count the failure and stamp it. */
  function Failed(s: State, b: Member, at: int): State {
    var s' := Incremented(s, b, Failure, 1);
    s'.(hashes := s'.hashes[b := HashOf(s', b)[LastFailure := at]])
  }

  /** onError: whether it trips, if a bucket is found to count the failure in. */
  ghost function CountFailure(cfg: Config, s: State, rs: seq<Reading>, evs: seq<Background>, at: int)
    : (State, Option<bool>)
    requires |rs| >= cfg.retries
  {
    var (s1, b) := ActiveBucket(cfg, s, 0, rs);
    if b == None then
      (s1, None)
    else
      var s2 := Failed(Disturbed(s1, evs), b.value, at);
      var h := HashOf(s2, b.value);
      if Exceeded(cfg, Get(h, Failure), Get(h, Success)) then (s2.(mode := Open), Some(true)) else (s2, Some(false))
  }

  /** onSuccess or onError; a success that finds no bucket throws, and so is counted as a failure. */
  ghost function Record(cfg: Config, s: State, call: Call): (State, Reply)
    requires |call.outcome| >= cfg.retries && |call.recovery| >= cfg.retries
  {
    if call.ok then
      var (s1, b) := ActiveBucket(cfg, s, 0, call.outcome);
      if b == None then
        var (s2, trips) := CountFailure(cfg, s1, call.recovery, call.recovering, call.recoveredAt);
        (s2, if trips == Some(true) then Tripped else Lost)
      else
        (Incremented(Disturbed(s1, call.recording), b.value, Success, 1).(mode := Closed), Returned)
    else
      var (s1, trips) := CountFailure(cfg, s, call.outcome, call.recording, call.failedAt);
      (s1, if trips == None then Lost else if trips.value then Tripped else Threw)
  }

  /** The finally block; a lost lookup is thrown in place of any other reply. */
  ghost function Exit(cfg: Config, s: State, call: Call, reply: Reply): (State, Reply)
    requires |call.final| >= cfg.retries
  {
    var (s1, b) := ActiveBucket(cfg, s, 0, call.final);
    if b == None then (s1, Lost) else (Incremented(s1, b.value, InFlight, -1), reply)
  }

  predicate Complete(cfg: Config, call: Call) {
    && |call.gate| >= cfg.retries && |call.outcome| >= cfg.retries
    && |call.recovery| >= cfg.retries && |call.final| >= cfg.retries
  }

  ghost function Serve(cfg: Config, s: State, call: Call): (State, Reply)
    requires Complete(cfg, call)
  {
    var (s1, gate) := Enter(cfg, s, call);
    match gate
    case Stop => (s1, Refused)
    case Broken => (s1, Lost)
    case Pass =>
      var (s2, reply) := Record(cfg, s1, call);
      Exit(cfg, s2, call, reply)
  }

  // ---------------------------------------------------------------- the simple machine

  /** The mode, the creation time of the newest bucket, and the outcomes recorded since. */
  datatype Simple = Simple(mode: Mode, born: int, outcomes: seq<bool>)

  function Count(outcomes: seq<bool>, ok: bool): nat {
    if outcomes == [] then 0
    else Count(outcomes[..|outcomes| - 1], ok) + if outcomes[|outcomes| - 1] == ok then 1 else 0
  }

  /** The breaker opens when the remembered outcomes hold enough failures and meet the threshold. */
  predicate Trips(cfg: Config, outcomes: seq<bool>) {
    Exceeded(cfg, Count(outcomes, false), Count(outcomes, true))
  }

  /** A new bucket, whoever creates it, starts a new list. */
  function Rolled(m: Simple, at: int): Simple {
    if at >= m.born then Simple(m.mode, at, []) else m
  }

  /** Of what goes on in the background only new buckets matter. */
  function SimplyDisturbed(m: Simple, evs: seq<Background>): Simple
    decreases |evs|
  {
    if evs == [] then m
    else SimplyDisturbed(if evs[0].NewBucket? then Rolled(m, evs[0].at) else m, evs[1..])
  }

  /** Some bucket of the background is newer. */
  predicate Overtaken(m: Simple, evs: seq<Background>) {
    exists i :: 0 <= i < |evs| && evs[i].NewBucket? && evs[i].at >= m.born
  }

  /** A call that finds the newest bucket too old starts a new one. */
  function SimpleLookup(cfg: Config, m: Simple, rs: seq<Reading>): Simple
    requires |rs| >= 2
  {
    var m1 := SimplyDisturbed(m, rs[0].before);
    if m1.born >= rs[0].look - cfg.interval then m1
    else SimplyDisturbed(Simple(m1.mode, rs[0].create, []), rs[1].before)
  }

  /** Stopped while the newest bucket is young in the open mode; a half-open call goes straight on. */
  function SimpleGate(cfg: Config, m: Simple, call: Call): (Simple, Gate)
    requires |call.gate| >= 2
  {
    var m1 := SimplyDisturbed(m, call.idle);
    match m1.mode
    case Closed => (SimpleLookup(cfg, m1, call.gate), Pass)
    case HalfOpen => (m1, Pass)
    case Open =>
      if m1.born >= call.gateAt - cfg.interval then (m1, Stop)
      else (SimplyDisturbed(SimpleLookup(cfg, m1.(mode := HalfOpen), call.gate), call.probing), Pass)
  }

  /**
   * A success closes; a failure opens if it and the remembered outcomes trip.  The outcome joins
   * the list it was judged with, unless a newer bucket has started another one in between.
   */
  function SimpleRecord(cfg: Config, m: Simple, call: Call): (Simple, Reply)
    requires |call.outcome| >= 2
  {
    var m1 := SimpleLookup(cfg, m, call.outcome);
    var m2 := SimplyDisturbed(m1, call.recording);
    var judged := m1.outcomes + [call.ok];
    var trips := !call.ok && Trips(cfg, judged);
    (Simple(if call.ok then Closed else if trips then Open else m2.mode,
            m2.born,
            if Overtaken(m1, call.recording) then m2.outcomes else judged),
     if call.ok then Returned else if trips then Tripped else Threw)
  }

  function SimpleServe(cfg: Config, m: Simple, call: Call): (Simple, Reply)
    requires |call.gate| >= 2 && |call.outcome| >= 2 && |call.final| >= 2
  {
    var (m1, gate) := SimpleGate(cfg, m, call);
    if gate == Stop then
      (m1, Refused)
    else
      var (m2, reply) := SimpleRecord(cfg, m1, call);
      (SimpleLookup(cfg, m2, call.final), reply)
  }

  // ---------------------------------------------------------------- the background

  /** Buckets of the background are stamped no later than t. */
  predicate StampedBy(evs: seq<Background>, t: int) {
    forall i | 0 <= i < |evs| :: evs[i].NewBucket? ==> evs[i].at <= t
  }

  /** No bucket of the background is stamped at t or later. */
  predicate StampedBefore(evs: seq<Background>, t: int) {
    forall i | 0 <= i < |evs| :: evs[i].NewBucket? ==> evs[i].at < t
  }

  /** x is the newest bucket. */
  ghost predicate IsTop(s: State, x: Member) {
    && x in s.timeline
    && forall y | y in s.timeline && y != x :: Before(s.timeline[y], y, s.timeline[x], x)
  }

  /** Ids are used in order, and nothing is stamped later than `now`. */
  ghost predicate Tidy(s: State, now: int) {
    forall x | x in s.timeline :: x < s.nextUid && s.timeline[x] <= now
  }

  /**
   * The store agrees with the simple machine: x is the newest bucket, it counts the outcomes
   * remembered, and is stamped with a failure only if there is one.
   */
  ghost predicate Represents(s: State, x: Member, m: Simple, now: int) {
    && Tidy(s, now) && IsTop(s, x) && s.mode == m.mode && s.timeline[x] == m.born
    && Get(HashOf(s, x), Success) == Count(m.outcomes, true)
    && Get(HashOf(s, x), Failure) == Count(m.outcomes, false)
    && (Count(m.outcomes, false) == 0 ==> Get(HashOf(s, x), LastFailure) == 0)
  }

  lemma CreationRefines(s: State, x: Member, m: Simple, now: int, at: int) returns (y: Member)
    requires Represents(s, x, m, now) && at <= now
    ensures y == if at >= m.born then s.nextUid else x
    ensures Represents(Created(s, at), y, Rolled(m, at), now)
  {
    y := if at >= m.born then s.nextUid else x;
  }

  lemma {:induction false} BackgroundRefines(s: State, x: Member, m: Simple, evs: seq<Background>, now: int)
    returns (y: Member)
    requires Represents(s, x, m, now) && StampedBy(evs, now)
    ensures Represents(Disturbed(s, evs), y, SimplyDisturbed(m, evs), now)
    ensures y == x <==> !Overtaken(m, evs)
    ensures y != x ==> x < s.nextUid <= y
    ensures s.nextUid <= Disturbed(s, evs).nextUid
    decreases |evs|
  {
    y := x;
    if evs != [] {
      var s1, m1, x1 := Disturbance(s, evs[0]), if evs[0].NewBucket? then Rolled(m, evs[0].at) else m, x;
      if evs[0].NewBucket? {
        x1 := CreationRefines(s, x, m, now, evs[0].at);
      }
      y := BackgroundRefines(s1, x1, m1, evs[1..], now);
      assert evs[0].NewBucket? && evs[0].at >= m.born ==> Overtaken(m, evs);
      if Overtaken(m1, evs[1..]) {
        var i :| 0 <= i < |evs[1..]| && evs[1..][i].NewBucket? && evs[1..][i].at >= m1.born;
        assert evs[i + 1].at >= m.born;
      }
    }
  }

  /** The background leaves the outcomes counted in a bucket alone. */
  lemma {:induction false} BackgroundKeepsOutcomes(s: State, evs: seq<Background>, b: Member, f: Field)
    requires b < s.nextUid && f != InFlight && f != Rejection
    ensures Get(HashOf(Disturbed(s, evs), b), f) == Get(HashOf(s, b), f)
    decreases |evs|
  {
    if evs != [] {
      BackgroundKeepsOutcomes(Disturbance(s, evs[0]), evs[1..], b, f);
    }
  }

  // ---------------------------------------------------------------- when buckets are found

  /** Readings in clock order, starting no earlier than `from`, the background not ahead of the clock. */
  ghost predicate InClockOrder(rs: seq<Reading>, from: int) {
    && (forall i | 0 <= i < |rs| :: from <= rs[i].look <= rs[i].create)
    && (forall i, j | 0 <= i < j < |rs| :: rs[i].create <= rs[j].look)
    && (forall i | 0 <= i < |rs| :: StampedBy(rs[i].before, rs[i].look) && StampedBy(rs[i].between, rs[i].create))
  }

  lemma ActiveIsNewest(cfg: Config, s: State, x: Member, now: int)
    requires Tidy(s, now) && IsTop(s, x)
    ensures ActiveAt(cfg, s, now) == if s.timeline[x] >= now - cfg.interval then Some(x) else None
  {
  }

  /** At least one retry is allowed, and the first re-check comes within the interval. */
  ghost predicate Timely(cfg: Config, rs: seq<Reading>, from: int) {
    cfg.interval >= 0 && cfg.retries >= 2 && |rs| >= cfg.retries && InClockOrder(rs, from)
    && rs[1].look <= rs[0].create + cfg.interval
  }

  function End(rs: seq<Reading>): int
    requires |rs| > 1
  {
    rs[1].create
  }

  lemma LaterStillRepresents(s: State, x: Member, m: Simple, now: int, later: int)
    requires Represents(s, x, m, now) && now <= later
    ensures Represents(s, x, m, later)
  {
  }

  /** Then the newest bucket is found, whoever created it, and the list is the one since it was. */
  lemma LookupRefines(cfg: Config, s: State, x: Member, m: Simple, rs: seq<Reading>, from: int) returns (y: Member)
    requires Represents(s, x, m, from) && Timely(cfg, rs, from)
    ensures var (t, b) := ActiveBucket(cfg, s, 0, rs);
            && b == Some(y) && Represents(t, y, SimpleLookup(cfg, m, rs), End(rs)) && y < t.nextUid
            && (m.born < rs[0].look - cfg.interval ==> s.nextUid <= y)
  {
    var s1, m1 := Disturbed(s, rs[0].before), SimplyDisturbed(m, rs[0].before);
    y := BackgroundRefines(s, x, m, rs[0].before, rs[0].look);
    NotOvertakenSame(m, rs[0].before);
    ActiveIsNewest(cfg, s1, y, rs[0].look);
    if m1.born < rs[0].look - cfg.interval {
      var u := BackgroundRefines(s1, y, m1, rs[0].between, rs[0].create);
      var s2, m2 := Disturbed(s1, rs[0].between), SimplyDisturbed(m1, rs[0].between);
      u := CreationRefines(s2, u, m2, rs[0].create, rs[0].create);
      BornBy(m1, rs[0].between, rs[0].create);
      var s3, m3 := Created(s2, rs[0].create), Simple(m1.mode, rs[0].create, []);
      assert Rolled(m2, rs[0].create) == m3;
      y := BackgroundRefines(s3, u, m3, rs[1].before, rs[1].look);
      BornFrom(m3, rs[1].before);
      ActiveIsNewest(cfg, Disturbed(s3, rs[1].before), y, rs[1].look);
    }
  }

  /** No bucket of the background is stamped later than all of them are. */
  lemma {:induction false} BornBy(m: Simple, evs: seq<Background>, t: int)
    requires StampedBy(evs, t) && m.born <= t
    ensures SimplyDisturbed(m, evs).born <= t && SimplyDisturbed(m, evs).mode == m.mode
    decreases |evs|
  {
    if evs != [] {
      BornBy(if evs[0].NewBucket? then Rolled(m, evs[0].at) else m, evs[1..], t);
    }
  }

  lemma {:induction false} BornFrom(m: Simple, evs: seq<Background>)
    ensures SimplyDisturbed(m, evs).born >= m.born && SimplyDisturbed(m, evs).mode == m.mode
    ensures SimplyDisturbed(m, evs).born > m.born || m.outcomes == [] ==> SimplyDisturbed(m, evs).outcomes == []
    decreases |evs|
  {
    if evs != [] {
      BornFrom(if evs[0].NewBucket? then Rolled(m, evs[0].at) else m, evs[1..]);
    }
  }

  /** Lookups find nothing exactly when no bucket, the background's included, is ever young enough. */
  lemma {:induction false} LostIff(cfg: Config, s: State, x: Member, m: Simple, attempt: nat, rs: seq<Reading>)
    requires cfg.interval >= 0 && |rs| >= cfg.retries && InClockOrder(rs, FirstLook(rs))
    requires attempt < cfg.retries && Represents(s, x, m, rs[attempt].look)
    ensures ActiveBucket(cfg, s, attempt, rs).1 == None
       <==> m.born < rs[attempt].look - cfg.interval && AlwaysLate(cfg, rs, attempt)
    decreases cfg.retries - attempt
  {
    var y := LookFinds(cfg, s, x, m, rs[attempt]);
    LateUnfolds(cfg, rs, attempt);
    var t := Created(Disturbed(Disturbed(s, rs[attempt].before), rs[attempt].between), rs[attempt].create);
    if ActiveAt(cfg, Disturbed(s, rs[attempt].before), rs[attempt].look) == None && attempt + 1 < cfg.retries {
      var m1 := Simple(m.mode, rs[attempt].create, []);
      LaterStillRepresents(t, y, m1, rs[attempt].create, rs[attempt + 1].look);
      LostIff(cfg, t, y, m1, attempt + 1, rs);
    }
  }

  /** From this attempt on no bucket of the background, nor one just created, is young enough for the next look. */
  predicate AlwaysLate(cfg: Config, rs: seq<Reading>, attempt: nat)
    requires |rs| >= cfg.retries
  {
    && (forall i | attempt <= i < cfg.retries :: StampedBefore(rs[i].before, rs[i].look - cfg.interval))
    && forall i | attempt <= i < cfg.retries - 1 :: rs[i].create < rs[i + 1].look - cfg.interval
  }

  lemma LateUnfolds(cfg: Config, rs: seq<Reading>, attempt: nat)
    requires |rs| >= cfg.retries && attempt < cfg.retries
    ensures AlwaysLate(cfg, rs, attempt)
       <==> && StampedBefore(rs[attempt].before, rs[attempt].look - cfg.interval)
            && (attempt + 1 < cfg.retries ==> rs[attempt].create < rs[attempt + 1].look - cfg.interval)
            && AlwaysLate(cfg, rs, attempt + 1)
  {
  }

  /** One round: it finds nothing exactly when all buckets are too old, and then the one it creates is the newest. */
  lemma LookFinds(cfg: Config, s: State, x: Member, m: Simple, rd: Reading) returns (y: Member)
    requires cfg.interval >= 0 && Represents(s, x, m, rd.look) && rd.look <= rd.create
    requires StampedBy(rd.before, rd.look) && StampedBy(rd.between, rd.create)
    ensures var s1 := Disturbed(s, rd.before);
            && (ActiveAt(cfg, s1, rd.look) == None
                <==> m.born < rd.look - cfg.interval && StampedBefore(rd.before, rd.look - cfg.interval))
            && Represents(Created(Disturbed(s1, rd.between), rd.create), y, Simple(m.mode, rd.create, []), rd.create)
  {
    var s1, m1 := Disturbed(s, rd.before), SimplyDisturbed(m, rd.before);
    y := BackgroundRefines(s, x, m, rd.before, rd.look);
    BornBefore(m, rd.before, rd.look - cfg.interval);
    BornBy(m, rd.before, rd.look);
    ActiveIsNewest(cfg, s1, y, rd.look);
    LaterStillRepresents(s1, y, m1, rd.look, rd.create);
    y := BackgroundRefines(s1, y, m1, rd.between, rd.create);
    BornBy(m1, rd.between, rd.create);
    y := CreationRefines(Disturbed(s1, rd.between), y, SimplyDisturbed(m1, rd.between), rd.create, rd.create);
  }

  function FirstLook(rs: seq<Reading>): int {
    if rs == [] then 0 else rs[0].look
  }

  lemma {:induction false} BornBefore(m: Simple, evs: seq<Background>, t: int)
    ensures SimplyDisturbed(m, evs).born < t <==> m.born < t && StampedBefore(evs, t)
    decreases |evs|
  {
    if evs != [] {
      BornBefore(if evs[0].NewBucket? then Rolled(m, evs[0].at) else m, evs[1..], t);
      assert StampedBefore(evs, t) <==> (evs[0].NewBucket? ==> evs[0].at < t) && StampedBefore(evs[1..], t) by {
        assert forall i | 0 < i < |evs| :: evs[i] == evs[1..][i - 1];
      }
    }
  }

  // ---------------------------------------------------------------- the gate

  /** Clock readings in order from gate to finally, the background not ahead of the clock. */
  ghost predicate CallTimely(cfg: Config, call: Call, from: int) {
    && from <= call.gateAt && StampedBy(call.idle, call.gateAt)
    && Timely(cfg, call.gate, call.gateAt)
    && End(call.gate) <= call.canaryAt && StampedBy(call.probing, call.canaryAt)
    && Timely(cfg, call.outcome, call.canaryAt)
    && End(call.outcome) <= call.failedAt && StampedBy(call.recording, call.failedAt)
    && |call.recovery| >= cfg.retries
    && Timely(cfg, call.final, call.failedAt)
  }

  /** The other counters are no part of what the simple machine remembers. */
  lemma IncrementKeeps(s: State, x: Member, m: Simple, now: int, b: Member, f: Field, d: int)
    requires Represents(s, x, m, now) && (f == InFlight || f == Rejection)
    ensures Represents(Incremented(s, b, f, d), x, m, now)
  {
  }

  predicate CountersQuiet(evs: seq<Background>) {
    forall i | 0 <= i < |evs| :: !evs[i].InFlightMoved?
  }

  /** No canary of the background counts itself while this call is at the gate. */
  predicate GateQuiet(call: Call) {
    && CountersQuiet(call.probing)
    && forall i | 0 <= i < |call.gate| :: CountersQuiet(call.gate[i].before) && CountersQuiet(call.gate[i].between)
  }

  /** Buckets with ids from `first` on have no call in flight. */
  predicate EmptyFrom(s: State, first: Member) {
    forall b | first <= b < s.nextUid :: Get(HashOf(s, b), InFlight) == 0
  }

  lemma DisturbanceKeepsEmpty(s: State, e: Background, first: Member)
    requires !e.InFlightMoved? && EmptyFrom(s, first)
    ensures EmptyFrom(Disturbance(s, e), first)
  {
    var t := Disturbance(s, e);
    forall b | first <= b < t.nextUid ensures Get(HashOf(t, b), InFlight) == 0 {
      if b < s.nextUid {
        assert Get(HashOf(s, b), InFlight) == 0;
      }
    }
  }

  lemma {:induction false} QuietKeepsEmpty(s: State, evs: seq<Background>, first: Member)
    requires CountersQuiet(evs) && EmptyFrom(s, first)
    ensures EmptyFrom(Disturbed(s, evs), first)
    decreases |evs|
  {
    if evs != [] {
      DisturbanceKeepsEmpty(s, evs[0], first);
      QuietKeepsEmpty(Disturbance(s, evs[0]), evs[1..], first);
    }
  }

  lemma {:induction false} LookupKeepsEmpty(cfg: Config, s: State, attempt: nat, rs: seq<Reading>, first: Member)
    requires |rs| >= cfg.retries && EmptyFrom(s, first)
    requires forall i | 0 <= i < |rs| :: CountersQuiet(rs[i].before) && CountersQuiet(rs[i].between)
    ensures EmptyFrom(ActiveBucket(cfg, s, attempt, rs).0, first)
    decreases cfg.retries - attempt
  {
    if attempt < cfg.retries {
      var s1 := Disturbed(s, rs[attempt].before);
      QuietKeepsEmpty(s, rs[attempt].before, first);
      if ActiveAt(cfg, s1, rs[attempt].look) == None {
        var s2 := Disturbed(s1, rs[attempt].between);
        QuietKeepsEmpty(s1, rs[attempt].between, first);
        DisturbanceKeepsEmpty(s2, NewBucket(rs[attempt].create), first);
        LookupKeepsEmpty(cfg, Created(s2, rs[attempt].create), attempt + 1, rs, first);
      }
    }
  }

  /** After the open window the lookup starts with a list that is still empty. */
  lemma ExpiredStartsAnew(cfg: Config, m: Simple, rs: seq<Reading>)
    requires |rs| >= 2 && m.born < rs[0].look - cfg.interval
    ensures SimpleLookup(cfg, m, rs).outcomes == [] && SimpleLookup(cfg, m, rs).mode == m.mode
  {
    BornFrom(m, rs[0].before);
    BornFrom(Simple(m.mode, rs[0].create, []), rs[1].before);
  }

  /** The limit or the clock lets a canary into a bucket without failures or calls in flight. */
  predicate FreshCanaryFits(cfg: Config, call: Call) {
    cfg.halfOpenLimit >= 1 || call.canaryAt > cfg.interval
  }

  /** So it does whatever other canaries do meanwhile, unless the limit alone decides and they interfere. */
  predicate FreshCanaryAllowed(cfg: Config, call: Call) {
    call.canaryAt > cfg.interval || (cfg.halfOpenLimit >= 1 && GateQuiet(call))
  }

  /** An awaited canary after the open window: where it counts itself, and what it is told. */
  lemma FirstCanary(cfg: Config, s: State, x: Member, m: Simple, call: Call) returns (y: Member)
    requires Represents(s, x, m, call.gateAt) && Timely(cfg, call.gate, call.gateAt)
    requires End(call.gate) <= call.canaryAt && StampedBy(call.probing, call.canaryAt)
    requires m.born < call.gate[0].look - cfg.interval
    ensures var (t, gate) := Canary(cfg, s, call);
            && Represents(t, y, SimplyDisturbed(SimpleLookup(cfg, m, call.gate), call.probing), call.canaryAt)
            && (GateQuiet(call) ==> gate == if FreshCanaryFits(cfg, call) then Pass else Stop)
            && (FreshCanaryAllowed(cfg, call) ==> gate == Pass)
  {
    var b := LookupRefines(cfg, s, x, m, call.gate, call.gateAt);
    ExpiredStartsAnew(cfg, m, call.gate);
    var s1, m1 := ActiveBucket(cfg, s, 0, call.gate).0, SimpleLookup(cfg, m, call.gate);
    y := BackgroundRefines(s1, b, m1, call.probing, call.canaryAt);
    var s2, m2 := Disturbed(s1, call.probing), SimplyDisturbed(m1, call.probing);
    IncrementKeeps(s2, y, m2, call.canaryAt, b, InFlight, 1);
    var s3 := Incremented(s2, b, InFlight, 1);
    IncrementKeeps(s3, y, m2, call.canaryAt, b, InFlight, -1);
    IncrementKeeps(Incremented(s3, b, InFlight, -1), y, m2, call.canaryAt, b, Rejection, 1);
    if GateQuiet(call) {
      LookupKeepsEmpty(cfg, s, 0, call.gate, s.nextUid);
      QuietKeepsEmpty(s1, call.probing, s.nextUid);
    }
  }

  lemma PassClosedRefines(cfg: Config, s: State, x: Member, m: Simple, call: Call) returns (y: Member)
    requires Represents(s, x, m, call.gateAt) && Timely(cfg, call.gate, call.gateAt)
    ensures var (t, gate) := PassClosed(cfg, s, call);
            gate == Pass && Represents(t, y, SimpleLookup(cfg, m, call.gate), End(call.gate))
  {
    y := LookupRefines(cfg, s, x, m, call.gate, call.gateAt);
    var s1 := ActiveBucket(cfg, s, 0, call.gate).0;
    IncrementKeeps(s1, y, SimpleLookup(cfg, m, call.gate), End(call.gate), y, InFlight, 1);
  }

  /** The gate does what the simple machine does, and a refusal only counts a rejection. */
  lemma EnterRefines(cfg: Config, s: State, x: Member, m: Simple, call: Call, from: int) returns (y: Member)
    requires Represents(s, x, m, from) && CallTimely(cfg, call, from) && FreshCanaryAllowed(cfg, call)
    ensures var (t, gate) := Enter(cfg, s, call);
            && gate == SimpleGate(cfg, m, call).1
            && Represents(t, y, SimpleGate(cfg, m, call).0, call.canaryAt)
            && (gate == Stop ==> t == Incremented(Disturbed(s, call.idle), y, Rejection, 1))
  {
    y := BackgroundRefines(s, x, m, call.idle, call.gateAt);
    var s1, m1 := Disturbed(s, call.idle), SimplyDisturbed(m, call.idle);
    match s1.mode
    case Closed => y := PassClosedRefines(cfg, s1, y, m1, call);
    case HalfOpen =>
    case Open =>
      ActiveIsNewest(cfg, s1, y, call.gateAt);
      if m1.born < call.gateAt - cfg.interval {
        y := FirstCanary(cfg, s1.(mode := HalfOpen), y, m1.(mode := HalfOpen), call);
      } else {
        IncrementKeeps(s1, y, m1, call.gateAt, y, Rejection, 1);
      }
  }

  /** Once the open window is over, an undisturbed gate and the simple machine agree exactly if the canary fits. */
  lemma OpenGateAgreesIff(cfg: Config, s: State, x: Member, m: Simple, call: Call, from: int)
    requires Represents(s, x, m, from) && CallTimely(cfg, call, from) && GateQuiet(call)
    requires var m1 := SimplyDisturbed(m, call.idle); m1.mode == Open && m1.born < call.gateAt - cfg.interval
    ensures Enter(cfg, s, call).1 == SimpleGate(cfg, m, call).1 <==> FreshCanaryFits(cfg, call)
  {
    var y := BackgroundRefines(s, x, m, call.idle, call.gateAt);
    var s1, m1 := Disturbed(s, call.idle), SimplyDisturbed(m, call.idle);
    ActiveIsNewest(cfg, s1, y, call.gateAt);
    y := FirstCanary(cfg, s1.(mode := HalfOpen), y, m1.(mode := HalfOpen), call);
  }

  // ---------------------------------------------------------------- the outcome

  lemma CountSnoc(outcomes: seq<bool>, ok: bool, which: bool)
    ensures Count(outcomes + [ok], which) == Count(outcomes, which) + if ok == which then 1 else 0
  {
    assert (outcomes + [ok])[..|outcomes|] == outcomes;
  }

  /** Counting an outcome in the newest bucket adds it to the list. */
  lemma CountedOnTop(s: State, x: Member, m: Simple, now: int, ok: bool, at: int)
    requires Represents(s, x, m, now)
    ensures var t := if ok then Incremented(s, x, Success, 1) else Failed(s, x, at);
            Represents(t, x, m.(outcomes := m.outcomes + [ok]), now)
  {
    CountSnoc(m.outcomes, ok, true);
    CountSnoc(m.outcomes, ok, false);
  }

  /** Counting it in an older one leaves the newest alone. */
  lemma CountedBelow(s: State, x: Member, m: Simple, now: int, b: Member, ok: bool, at: int)
    requires Represents(s, x, m, now) && b != x
    ensures Represents(if ok then Incremented(s, b, Success, 1) else Failed(s, b, at), x, m, now)
  {
  }

  /** The failure is judged on the counts of its bucket as it was found. */
  lemma JudgedAsFound(s: State, evs: seq<Background>, b: Member, m: Simple, now: int, at: int)
    requires Represents(s, b, m, now)
    ensures var h := HashOf(Failed(Disturbed(s, evs), b, at), b);
            && Get(h, Failure) == Count(m.outcomes + [false], false)
            && Get(h, Success) == Count(m.outcomes + [false], true)
  {
    BackgroundKeepsOutcomes(s, evs, b, Success);
    BackgroundKeepsOutcomes(s, evs, b, Failure);
    CountSnoc(m.outcomes, false, true);
    CountSnoc(m.outcomes, false, false);
  }

  /** Where the count goes: on top, or, overtaken, below the newest bucket. */
  lemma CountedWhere(s: State, b: Member, m: Simple, now: int, call: Call) returns (y: Member)
    requires Represents(s, b, m, now) && now <= call.failedAt && StampedBy(call.recording, call.failedAt)
    ensures var s2, m2 := Disturbed(s, call.recording), SimplyDisturbed(m, call.recording);
            var t := if call.ok then Incremented(s2, b, Success, 1) else Failed(s2, b, call.failedAt);
            var outcomes := if Overtaken(m, call.recording) then m2.outcomes else m.outcomes + [call.ok];
            && m2.mode == m.mode && Represents(t, y, m2.(outcomes := outcomes), call.failedAt)
  {
    LaterStillRepresents(s, b, m, now, call.failedAt);
    y := BackgroundRefines(s, b, m, call.recording, call.failedAt);
    BornFrom(m, call.recording);
    var s2, m2 := Disturbed(s, call.recording), SimplyDisturbed(m, call.recording);
    if Overtaken(m, call.recording) {
      CountedBelow(s2, y, m2, call.failedAt, b, call.ok, call.failedAt);
    } else {
      NotOvertakenSame(m, call.recording);
      CountedOnTop(s2, y, m2, call.failedAt, call.ok, call.failedAt);
    }
  }

  lemma NewMode(s: State, x: Member, m: Simple, now: int, mode: Mode)
    requires Represents(s, x, m, now)
    ensures Represents(s.(mode := mode), x, m.(mode := mode), now)
  {
  }

  /** The bucket found counts the outcome; the simple machine's list is its own or, overtaken, the newer one's. */
  lemma RecordRefines(cfg: Config, s: State, x: Member, m: Simple, call: Call, from: int) returns (y: Member)
    requires Represents(s, x, m, from) && Timely(cfg, call.outcome, from)
    requires End(call.outcome) <= call.failedAt && StampedBy(call.recording, call.failedAt)
    requires |call.recovery| >= cfg.retries
    ensures Record(cfg, s, call).1 == SimpleRecord(cfg, m, call).1
    ensures Represents(Record(cfg, s, call).0, y, SimpleRecord(cfg, m, call).0, call.failedAt)
  {
    var b := LookupRefines(cfg, s, x, m, call.outcome, from);
    var s1, m1 := ActiveBucket(cfg, s, 0, call.outcome).0, SimpleLookup(cfg, m, call.outcome);
    y := CountedWhere(s1, b, m1, End(call.outcome), call);
    var s2, m2 := Disturbed(s1, call.recording), SimplyDisturbed(m1, call.recording);
    var m3 := m2.(outcomes := if Overtaken(m1, call.recording) then m2.outcomes else m1.outcomes + [call.ok]);
    if call.ok {
      NewMode(Incremented(s2, b, Success, 1), y, m3, call.failedAt, Closed);
    } else {
      JudgedAsFound(s1, call.recording, b, m1, End(call.outcome), call.failedAt);
      NewMode(Failed(s2, b, call.failedAt), y, m3, call.failedAt, Open);
    }
  }

  lemma {:induction false} NotOvertakenSame(m: Simple, evs: seq<Background>)
    ensures !Overtaken(m, evs) ==> SimplyDisturbed(m, evs) == m
    decreases |evs|
  {
    if evs != [] && !Overtaken(m, evs) {
      assert forall i | 0 <= i < |evs[1..]| :: evs[1..][i] == evs[i + 1];
      assert !(evs[0].NewBucket? && evs[0].at >= m.born);
      NotOvertakenSame(m, evs[1..]);
    }
  }

  /** The counter an outcome goes to. */
  function OutcomeField(ok: bool): Field {
    if ok then Success else Failure
  }

  /** In the store, the newest bucket counts the outcome exactly if no newer one came between lookup and count. */
  lemma NewestCountsIff(cfg: Config, s: State, x: Member, m: Simple, call: Call, from: int) returns (y: Member)
    requires Represents(s, x, m, from) && Timely(cfg, call.outcome, from) && |call.recovery| >= cfg.retries
    requires End(call.outcome) <= call.failedAt && StampedBy(call.recording, call.failedAt)
    ensures var before := Disturbed(ActiveBucket(cfg, s, 0, call.outcome).0, call.recording);
            var after, f := Record(cfg, s, call).0, OutcomeField(call.ok);
            && IsTop(before, y) && IsTop(after, y)
            && Get(HashOf(after, y), f) == Get(HashOf(before, y), f)
                 + if Overtaken(SimpleLookup(cfg, m, call.outcome), call.recording) then 0 else 1
  {
    var b := LookupRefines(cfg, s, x, m, call.outcome, from);
    var s1, m1 := ActiveBucket(cfg, s, 0, call.outcome).0, SimpleLookup(cfg, m, call.outcome);
    y := BackgroundRefines(s1, b, m1, call.recording, call.failedAt);
  }

  /** The outcome is remembered with those since the newest bucket exactly if no newer one came in between. */
  lemma OutcomeRememberedIff(cfg: Config, m: Simple, call: Call)
    requires |call.outcome| >= 2
    ensures var since := SimplyDisturbed(SimpleLookup(cfg, m, call.outcome), call.recording).outcomes;
            SimpleRecord(cfg, m, call).0.outcomes == since + [call.ok]
            <==> !Overtaken(SimpleLookup(cfg, m, call.outcome), call.recording)
  {
    var m1 := SimpleLookup(cfg, m, call.outcome);
    var since := SimplyDisturbed(m1, call.recording).outcomes;
    NotOvertakenSame(m1, call.recording);
    assert |since| < |since + [call.ok]|;
  }

  lemma ExitRefines(cfg: Config, s: State, x: Member, m: Simple, call: Call, reply: Reply, from: int)
    returns (y: Member)
    requires Represents(s, x, m, from) && Timely(cfg, call.final, from)
    ensures Exit(cfg, s, call, reply).1 == reply
    ensures Represents(Exit(cfg, s, call, reply).0, y, SimpleLookup(cfg, m, call.final), End(call.final))
  {
    y := LookupRefines(cfg, s, x, m, call.final, from);
    var s1 := ActiveBucket(cfg, s, 0, call.final).0;
    IncrementKeeps(s1, y, SimpleLookup(cfg, m, call.final), End(call.final), y, InFlight, -1);
  }

  /** One call: the hash counters and the remembered outcomes take the same transition and give the same reply. */
  lemma CallRefines(cfg: Config, s: State, x: Member, m: Simple, call: Call, from: int) returns (y: Member)
    requires Represents(s, x, m, from) && CallTimely(cfg, call, from) && FreshCanaryAllowed(cfg, call)
    ensures Serve(cfg, s, call).1 == SimpleServe(cfg, m, call).1
    ensures Represents(Serve(cfg, s, call).0, y, SimpleServe(cfg, m, call).0, End(call.final))
  {
    y := EnterRefines(cfg, s, x, m, call, from);
    var s1, m1 := Enter(cfg, s, call).0, SimpleGate(cfg, m, call).0;
    if Enter(cfg, s, call).1 == Pass {
      y := RecordRefines(cfg, s1, y, m1, call, call.canaryAt);
      var (s2, reply) := Record(cfg, s1, call);
      y := ExitRefines(cfg, s2, y, SimpleRecord(cfg, m1, call).0, call, reply, call.failedAt);
    }
  }

  /** The half-open limit turns nobody away: a half-open call runs the function, whatever any canary is told. */
  lemma HalfOpenRunsAnyway(cfg: Config, s: State, x: Member, m: Simple, call: Call, from: int)
    requires Represents(s, x, m, from) && CallTimely(cfg, call, from) && m.mode == HalfOpen
    ensures var judged := SimpleLookup(cfg, SimplyDisturbed(m, call.idle), call.outcome).outcomes + [call.ok];
            Serve(cfg, s, call).1 == if call.ok then Returned else if Trips(cfg, judged) then Tripped else Threw
  {
    var y := BackgroundRefines(s, x, m, call.idle, call.gateAt);
    BornFrom(m, call.idle);
    var s1, m1 := Disturbed(s, call.idle), SimplyDisturbed(m, call.idle);
    y := RecordRefines(cfg, s1, y, m1, call, call.canaryAt);
    var (s2, reply) := Record(cfg, s1, call);
    y := ExitRefines(cfg, s2, y, SimpleRecord(cfg, m1, call).0, call, reply, call.failedAt);
  }

  // ---------------------------------------------------------------- whole runs

  predicate CanariesAllowed(cfg: Config, calls: seq<Call>) {
    forall i | 0 <= i < |calls| :: FreshCanaryAllowed(cfg, calls[i])
  }

  /** Calls that do not overlap, on a clock that never goes back. */
  ghost predicate OneAfterAnother(cfg: Config, calls: seq<Call>, from: int)
    decreases |calls|
  {
    calls != [] ==> CallTimely(cfg, calls[0], from) && OneAfterAnother(cfg, calls[1..], End(calls[0].final))
  }

  ghost function ServeAll(cfg: Config, s: State, calls: seq<Call>, from: int): (State, seq<Reply>)
    requires OneAfterAnother(cfg, calls, from)
    decreases |calls|
  {
    if calls == [] then
      (s, [])
    else
      var (s1, reply) := Serve(cfg, s, calls[0]);
      var (s2, replies) := ServeAll(cfg, s1, calls[1..], End(calls[0].final));
      (s2, [reply] + replies)
  }

  ghost function SimpleServeAll(cfg: Config, m: Simple, calls: seq<Call>, from: int): (Simple, seq<Reply>)
    requires OneAfterAnother(cfg, calls, from)
    decreases |calls|
  {
    if calls == [] then
      (m, [])
    else
      var (m1, reply) := SimpleServe(cfg, m, calls[0]);
      var (m2, replies) := SimpleServeAll(cfg, m1, calls[1..], End(calls[0].final));
      (m2, [reply] + replies)
  }

  lemma {:induction false} RunRefinesFrom(cfg: Config, s: State, x: Member, m: Simple, calls: seq<Call>, from: int)
    requires Represents(s, x, m, from) && OneAfterAnother(cfg, calls, from) && CanariesAllowed(cfg, calls)
    ensures ServeAll(cfg, s, calls, from).1 == SimpleServeAll(cfg, m, calls, from).1
    ensures ServeAll(cfg, s, calls, from).0.mode == SimpleServeAll(cfg, m, calls, from).0.mode
    decreases |calls|
  {
    if calls != [] {
      var y := CallRefines(cfg, s, x, m, calls[0], from);
      var s1, m1 := Serve(cfg, s, calls[0]).0, SimpleServe(cfg, m, calls[0]).0;
      RunRefinesFrom(cfg, s1, y, m1, calls[1..], End(calls[0].final));
    }
  }

  /** registerCircuit: closed, with one fresh bucket. */
  function Registered(s: State, t: int): State {
    Created(s.(mode := Closed), t)
  }

  /** A registration, the first or a later one, forgets what any earlier bucket counted. */
  lemma RegistrationForgets(s: State, t: int)
    requires Tidy(s, t)
    ensures Represents(Registered(s, t), s.nextUid, Simple(Closed, t, []), t)
  {
  }

  /** From a registration on, over every run of non-overlapping calls the breaker replies as the simple machine does. */
  lemma BreakerRefinesSimple(cfg: Config, s: State, calls: seq<Call>, t: int)
    requires Tidy(s, t) && OneAfterAnother(cfg, calls, t) && CanariesAllowed(cfg, calls)
    ensures var run := ServeAll(cfg, Registered(s, t), calls, t);
            var simple := SimpleServeAll(cfg, Simple(Closed, t, []), calls, t);
            run.1 == simple.1 && run.0.mode == simple.0.mode
  {
    RegistrationForgets(s, t);
    RunRefinesFrom(cfg, Registered(s, t), s.nextUid, Simple(Closed, t, []), calls, t);
  }

  // ---------------------------------------------------------------- the open window

  /** While open, a call is turned away exactly until the clock passes the newest bucket's creation plus interval. */
  lemma OpenWindowIff(cfg: Config, s: State, x: Member, m: Simple, call: Call, from: int) returns (y: Member)
    requires Represents(s, x, m, from) && m.mode == Open && CallTimely(cfg, call, from) && FreshCanaryAllowed(cfg, call)
    ensures var u := Disturbed(s, call.idle);
            && IsTop(u, y) && (call.idle == [] ==> y == x)
            && (Serve(cfg, s, call).1 == Refused <==> call.gateAt <= u.timeline[y] + cfg.interval)
            && (Serve(cfg, s, call).1 == Refused ==> Serve(cfg, s, call).0 == Incremented(u, y, Rejection, 1))
  {
    y := BackgroundRefines(s, x, m, call.idle, call.gateAt);
    BornFrom(m, call.idle);
    var z := EnterRefines(cfg, s, x, m, call, from);
    z := CallRefines(cfg, s, x, m, call, from);
  }

  /** t comes from s by one rejection a call, besides what the canaries still under way do. */
  ghost predicate OnlyRejections(s: State, t: State, calls: seq<Call>)
    decreases |calls|
  {
    if calls == [] then
      t == s
    else
      var u := Disturbed(s, calls[0].idle);
      exists y :: IsTop(u, y) && OnlyRejections(Incremented(u, y, Rejection, 1), t, calls[1..])
  }

  /** After a trip, every call inside the window is refused, counts one rejection and creates no bucket. */
  lemma {:induction false} OpenWindowIsSafe(cfg: Config, s: State, x: Member, m: Simple, calls: seq<Call>, from: int)
    requires Represents(s, x, m, from) && m.mode == Open && OneAfterAnother(cfg, calls, from)
    requires CanariesAllowed(cfg, calls)
    requires forall i | 0 <= i < |calls| :: calls[i].gateAt <= m.born + cfg.interval
    ensures var (t, replies) := ServeAll(cfg, s, calls, from);
            OnlyRejections(s, t, calls) && replies == Refusals(|calls|)
    decreases |calls|
  {
    if calls != [] {
      var y, m1 := RefusalStep(cfg, s, x, m, calls[0], from);
      assert forall i | 0 <= i < |calls[1..]| :: calls[1..][i] == calls[i + 1];
      OpenWindowIsSafe(cfg, Serve(cfg, s, calls[0]).0, y, m1, calls[1..], End(calls[0].final));
      FirstRefused(cfg, s, calls, from);
    }
  }

  function Refusals(n: nat): seq<Reply> {
    if n == 0 then [] else [Refused] + Refusals(n - 1)
  }

  lemma FirstRefused(cfg: Config, s: State, calls: seq<Call>, from: int)
    requires calls != [] && OneAfterAnother(cfg, calls, from) && Serve(cfg, s, calls[0]).1 == Refused
    ensures var (t, rest) := ServeAll(cfg, Serve(cfg, s, calls[0]).0, calls[1..], End(calls[0].final));
            ServeAll(cfg, s, calls, from) == (t, [Refused] + rest)
  {
  }

  /** One refusal leaves the breaker open, with a newest bucket no older. */
  lemma RefusalStep(cfg: Config, s: State, x: Member, m: Simple, call: Call, from: int) returns (y: Member, m1: Simple)
    requires Represents(s, x, m, from) && m.mode == Open && CallTimely(cfg, call, from) && FreshCanaryAllowed(cfg, call)
    requires call.gateAt <= m.born + cfg.interval
    ensures var u := Disturbed(s, call.idle);
            && IsTop(u, y) && Serve(cfg, s, call) == (Incremented(u, y, Rejection, 1), Refused)
            && Represents(Incremented(u, y, Rejection, 1), y, m1, End(call.final))
            && m1.mode == Open && m1.born >= m.born
  {
    y := BackgroundRefines(s, x, m, call.idle, call.gateAt);
    m1 := SimplyDisturbed(m, call.idle);
    BornFrom(m, call.idle);
    var z := EnterRefines(cfg, s, x, m, call, from);
    IncrementKeeps(Disturbed(s, call.idle), y, m1, call.gateAt, y, Rejection, 1);
  }

  /** n refusals counted, and nothing else changed. */
  function WithRejections(s: State, b: Member, n: nat): State {
    if n == 0 then s else Incremented(WithRejections(s, b, n - 1), b, Rejection, 1)
  }

  lemma {:induction false} RejectionsAdd(s: State, b: Member, n: nat)
    ensures WithRejections(Incremented(s, b, Rejection, 1), b, n) == WithRejections(s, b, n + 1)
  {
    if n > 0 {
      RejectionsAdd(s, b, n - 1);
    }
  }

  /** With no canary under way, nothing but the newest bucket's rejection counter has moved. */
  lemma {:induction false} RejectionsOnly(s: State, t: State, x: Member, calls: seq<Call>)
    requires OnlyRejections(s, t, calls) && IsTop(s, x) && forall i | 0 <= i < |calls| :: calls[i].idle == []
    ensures t == WithRejections(s, x, |calls|)
    decreases |calls|
  {
    if calls != [] {
      assert forall i | 0 <= i < |calls[1..]| :: calls[1..][i] == calls[i + 1];
      assert Disturbed(s, calls[0].idle) == s;
      RejectionsOnly(Incremented(s, x, Rejection, 1), t, x, calls[1..]);
      RejectionsAdd(s, x, |calls| - 1);
    }
  }

  // ---------------------------------------------------------------- when it trips

  lemma SimplyTripsIff(cfg: Config, m: Simple, call: Call)
    requires |call.gate| >= 2 && |call.outcome| >= 2 && |call.final| >= 2
    ensures var (m1, gate) := SimpleGate(cfg, m, call);
            SimpleServe(cfg, m, call).1 == Tripped
            <==> gate == Pass && !call.ok && Trips(cfg, SimpleLookup(cfg, m1, call.outcome).outcomes + [false])
  {
    assert SimpleGate(cfg, m, call).1 != Broken;
  }

  /** The breaker opens exactly when an admitted call fails and the outcomes since its bucket's creation trip. */
  lemma OpensIff(cfg: Config, s: State, x: Member, m: Simple, call: Call, from: int)
    requires Represents(s, x, m, from) && CallTimely(cfg, call, from) && FreshCanaryAllowed(cfg, call)
    ensures var (m1, gate) := SimpleGate(cfg, m, call);
            Serve(cfg, s, call).1 == Tripped
            <==> gate == Pass && !call.ok && Trips(cfg, SimpleLookup(cfg, m1, call.outcome).outcomes + [false])
  {
    var y := CallRefines(cfg, s, x, m, call, from);
    SimplyTripsIff(cfg, m, call);
  }
}
