/**
 * The half-open canary nobody waits for, one step per command, and what it can do to other calls.
 */
module CircuitCanary {
  import opened SortedSets
  import opened RedisStore
  import opened Circuit

  /** Where onHalfOpen is, with its locals. */
  datatype Frame =
    | Looking(attempt: nat)
    | Creating(attempt: nat)
    | Found(b: Member)
    | Read(b: Member, lastFailure: int)
    | Counted(b: Member, inFlight: int, lastFailure: int)
    | Uncounted(b: Member)
    | Passed(b: Member)
    | TurnedAway
    | Gone                  // no bucket found, or never started

  ghost function CanaryStep(cfg: Config, s: State, f: Frame, now: int): (State, Frame) {
    match f
    case Looking(n) =>
      if n >= cfg.retries then (s, Gone)
      else (s, match ActiveAt(cfg, s, now) case Some(b) => Found(b) case None => Creating(n))
    case Creating(n) => (Created(s, now), Looking(n + 1))
    case Found(b) => (s, Read(b, Get(HashOf(s, b), LastFailure)))
    case Read(b, lastFailure) =>
      var t := Incremented(s, b, InFlight, 1);
      (t, Counted(b, Get(HashOf(t, b), InFlight), lastFailure))
    case Counted(b, inFlight, lastFailure) =>
      if AllowCanary(cfg, inFlight, lastFailure, now) then (s, Passed(b))
      else (Incremented(s, b, InFlight, -1), Uncounted(b))
    case Uncounted(b) => (Incremented(s, b, Rejection, 1), TurnedAway)
    case _ => (s, f)
  }

  /** It is canary c's turn, at time `at`. */
  datatype Turn = Turn(c: Member, at: int)

  /** Any number of canaries taking turns. */
  ghost function Canaries(cfg: Config, s: State, frames: map<Member, Frame>, turns: seq<Turn>)
    : (State, map<Member, Frame>)
    decreases |turns|
  {
    if turns == [] then
      (s, frames)
    else
      var c := turns[0].c;
      var (t, f) := CanaryStep(cfg, s, if c in frames then frames[c] else Gone, turns[0].at);
      Canaries(cfg, t, frames[c := f], turns[1..])
  }

  lemma StepIsBackground(cfg: Config, s: State, f: Frame, now: int) returns (evs: seq<Background>)
    ensures CanaryStep(cfg, s, f, now).0 == Disturbed(s, evs) && StampedBy(evs, now)
  {
    evs := match f
      case Creating(_) => [NewBucket(now)]
      case Read(b, _) => [InFlightMoved(b, 1)]
      case Counted(b, n, lastFailure) => if AllowCanary(cfg, n, lastFailure, now) then [] else [InFlightMoved(b, -1)]
      case Uncounted(b) => [Rejected(b)]
      case _ => [];
    if evs != [] {
      assert Disturbed(s, evs) == Disturbed(Disturbance(s, evs[0]), []);
    }
  }

  lemma {:induction false} DisturbedTwice(s: State, xs: seq<Background>, ys: seq<Background>)
    ensures Disturbed(s, xs + ys) == Disturbed(Disturbed(s, xs), ys)
    decreases |xs|
  {
    if xs == [] {
      assert xs + ys == ys;
    } else {
      assert (xs + ys)[1..] == xs[1..] + ys;
      DisturbedTwice(Disturbance(s, xs[0]), xs[1..], ys);
    }
  }

  /** Whatever canaries of whatever calls do up to time `now` is a list of background events stamped by then. */
  lemma {:induction false} CanariesAreBackground(
    cfg: Config, s: State, frames: map<Member, Frame>, turns: seq<Turn>, now: int)
    returns (evs: seq<Background>)
    requires forall i | 0 <= i < |turns| :: turns[i].at <= now
    ensures Canaries(cfg, s, frames, turns).0 == Disturbed(s, evs) && StampedBy(evs, now)
    decreases |turns|
  {
    evs := [];
    if turns != [] {
      var c := turns[0].c;
      var f := if c in frames then frames[c] else Gone;
      var (t, f1) := CanaryStep(cfg, s, f, turns[0].at);
      var first := StepIsBackground(cfg, s, f, turns[0].at);
      var rest := CanariesAreBackground(cfg, t, frames[c := f1], turns[1..], now);
      DisturbedTwice(s, first, rest);
      evs := first + rest;
    }
  }

  // ---------------------------------------------------------------- a slow canary

  /** Lookups that all happen at time t, with nothing in the background. */
  function QuietAt(cfg: Config, t: int): seq<Reading> {
    seq(cfg.retries, _ => Reading([], t, [], t))
  }

  /** A failing call at time t. */
  function Failing(cfg: Config, t: int, idle: seq<Background>): Call {
    Call(false, idle, t, QuietAt(cfg, t), [], t, QuietAt(cfg, t), [], t, QuietAt(cfg, t), [], t, QuietAt(cfg, t))
  }

  /** The canary of a call at time t looks before the call has created its bucket, and creates another one after it. */
  lemma SlowCanaryCreates(cfg: Config, s: State, x: Member, later: State, t: int)
    requires cfg.retries > 0 && Tidy(s, t) && IsTop(s, x) && s.timeline[x] < t - cfg.interval
    ensures CanaryStep(cfg, s, Looking(0), t) == (s, Creating(0))
    ensures CanaryStep(cfg, later, Creating(0), t) == (Disturbed(later, [NewBucket(t)]), Looking(1))
  {
    ActiveIsNewest(cfg, s, x, t);
    assert Disturbed(later, [NewBucket(t)]) == Disturbed(Created(later, t), []);
  }

  lemma FailingTimely(cfg: Config, t: int, idle: seq<Background>)
    requires cfg.retries >= 2 && 0 <= cfg.interval < t && StampedBy(idle, t)
    ensures var call := Failing(cfg, t, idle);
            Complete(cfg, call) && CallTimely(cfg, call, t) && End(call.final) == t && FreshCanaryAllowed(cfg, call)
  {
  }

  /** In the simple machine a half-open failing call is judged with the list it finds. */
  lemma FailingSimply(cfg: Config, m: Simple, t: int, idle: seq<Background>, outcomes: seq<bool>)
    requires cfg.retries >= 2 && 0 <= cfg.interval < t
    requires m.mode == SimplyDisturbed(m, idle).mode == HalfOpen
    requires SimpleLookup(cfg, SimplyDisturbed(m, idle), QuietAt(cfg, t)) == Simple(HalfOpen, t, outcomes)
    ensures SimpleServe(cfg, m, Failing(cfg, t, idle))
         == if Trips(cfg, outcomes + [false]) then (Simple(Open, t, outcomes + [false]), Tripped)
            else (Simple(HalfOpen, t, outcomes + [false]), Threw)
  {
    var call := Failing(cfg, t, idle);
    var m1 := SimpleRecord(cfg, SimplyDisturbed(m, idle), call).0;
    assert m1.born == t && m1.outcomes == outcomes + [false];
    assert SimpleLookup(cfg, m1, call.final) == m1;
  }

  lemma TwoCalls(cfg: Config, s: State, a: Call, b: Call, from: int)
    requires CallTimely(cfg, a, from) && CallTimely(cfg, b, End(a.final))
    ensures OneAfterAnother(cfg, [a, b], from)
    ensures ServeAll(cfg, s, [a, b], from).1 == [Serve(cfg, s, a).1, Serve(cfg, Serve(cfg, s, a).0, b).1]
  {
    assert [a, b][1..] == [b] && [b][1..] == [];
    assert OneAfterAnother(cfg, [b], End(a.final));
    assert ServeAll(cfg, Serve(cfg, s, a).0, [b], End(a.final)).1 == [Serve(cfg, Serve(cfg, s, a).0, b).1];
  }

  /** A half-open breaker with an expired bucket takes two failures at time t. */
  lemma TwoFailures(cfg: Config, s: State, x: Member, m: Simple, t: int, idle: seq<Background>, outcomes: seq<bool>)
    requires Represents(s, x, m, t) && m.mode == HalfOpen && m.born < t - cfg.interval
    requires cfg.retries >= 2 && 0 <= cfg.interval < t && !Trips(cfg, [false]) && StampedBy(idle, t)
    requires SimplyDisturbed(Simple(HalfOpen, t, [false]), idle) == Simple(HalfOpen, t, outcomes)
    ensures var calls := [Failing(cfg, t, []), Failing(cfg, t, idle)];
            && OneAfterAnother(cfg, calls, t)
            && ServeAll(cfg, s, calls, t).1 == [Threw, if Trips(cfg, outcomes + [false]) then Tripped else Threw]
  {
    var first, second, m1 := Failing(cfg, t, []), Failing(cfg, t, idle), Simple(HalfOpen, t, [false]);
    FailingTimely(cfg, t, []);
    FailingTimely(cfg, t, idle);
    assert [] + [false] == [false];
    FailingSimply(cfg, m, t, [], []);
    var y := CallRefines(cfg, s, x, m, first, t);
    FailingSimply(cfg, m1, t, idle, outcomes);
    var z := CallRefines(cfg, Serve(cfg, s, first).0, y, m1, second, t);
    TwoCalls(cfg, s, first, second, t);
  }

  /**
   * Two failures that trip a half-open breaker do not trip it if the first call's canary creates
   * its bucket between them.
   */
  lemma SlowCanaryDropsFailure(cfg: Config, s: State, x: Member, m: Simple, t: int)
    requires Represents(s, x, m, t) && m.mode == HalfOpen && m.born < t - cfg.interval
    requires cfg.retries >= 2 && 0 <= cfg.interval < t
    requires !Trips(cfg, [false]) && Trips(cfg, [false, false])
    ensures var quiet := [Failing(cfg, t, []), Failing(cfg, t, [])];
            OneAfterAnother(cfg, quiet, t) && ServeAll(cfg, s, quiet, t).1 == [Threw, Tripped]
    ensures var slow := [Failing(cfg, t, []), Failing(cfg, t, [NewBucket(t)])];
            OneAfterAnother(cfg, slow, t) && ServeAll(cfg, s, slow, t).1 == [Threw, Threw]
  {
    var m1 := Simple(HalfOpen, t, [false]);
    TwoFailures(cfg, s, x, m, t, [], [false]);
    assert SimplyDisturbed(m1, [NewBucket(t)]) == SimplyDisturbed(Simple(HalfOpen, t, []), []);
    TwoFailures(cfg, s, x, m, t, [NewBucket(t)], []);
    assert [false] + [false] == [false, false] && [] + [false] == [false];
  }
}
