/** How many executions a half-open breaker lets through, and when halfOpenLimit bounds them. */
module HalfOpenLimit {
  import opened SortedSets
  import opened RedisStore
  import opened Circuit
  import opened CircuitCanary
  import opened CircuitThresholds

  /** The call runs its function while the breaker is half-open. */
  ghost predicate RunsHalfOpen(cfg: Config, s: State, call: Call)
    requires |call.gate| >= cfg.retries
  {
    Enter(cfg, s, call).1 == Pass && Enter(cfg, s, call).0.mode == HalfOpen
  }

  /** The executions of the present half-open phase, this call's included; `before` were there already. */
  ghost function Executions(cfg: Config, s: State, before: nat, call: Call): nat
    requires |call.gate| >= cfg.retries
  {
    (if s.mode == HalfOpen then before else 0) + if RunsHalfOpen(cfg, s, call) then 1 else 0
  }

  /** No half-open phase of the run has more than halfOpenLimit executions. */
  ghost predicate KeepsLimit(cfg: Config, s: State, before: nat, calls: seq<Call>, from: int)
    requires OneAfterAnother(cfg, calls, from)
    decreases |calls|
  {
    calls != [] ==>
      var n := Executions(cfg, s, before, calls[0]);
      && (RunsHalfOpen(cfg, s, calls[0]) ==> n <= cfg.halfOpenLimit)
      && KeepsLimit(cfg, Serve(cfg, s, calls[0]).0, n, calls[1..], End(calls[0].final))
  }

  /** From every registration on a clock past the interval, every run of non-overlapping calls keeps the limit. */
  ghost predicate LimitHolds(cfg: Config) {
    forall s, t, calls | Tidy(s, t) && t > cfg.interval && OneAfterAnother(cfg, calls, t) ::
      KeepsLimit(cfg, Registered(s, t), 0, calls, t)
  }

  // ---------------------------------------------------------------- when the limit holds

  lemma StillEmpty(cfg: Config, m: Simple, rs: seq<Reading>)
    requires |rs| >= 2 && m.outcomes == []
    ensures SimpleLookup(cfg, m, rs).outcomes == [] && SimpleLookup(cfg, m, rs).mode == m.mode
  {
    BornFrom(m, rs[0].before);
    BornFrom(Simple(m.mode, rs[0].create, []), rs[1].before);
  }

  lemma LookupKeepsMode(cfg: Config, m: Simple, rs: seq<Reading>)
    requires |rs| >= 2
    ensures SimpleLookup(cfg, m, rs).mode == m.mode
  {
    BornFrom(m, rs[0].before);
    BornFrom(Simple(m.mode, rs[0].create, []), rs[1].before);
  }

  /** A call that opens the half-open phase is judged on its own outcome alone. */
  lemma PhaseStartsAnew(cfg: Config, m: Simple, call: Call, from: int)
    requires CallTimely(cfg, call, from) && m.mode == Open && SimpleGate(cfg, m, call).1 == Pass
    ensures var m1 := SimpleGate(cfg, m, call).0;
            m1.mode == HalfOpen && SimpleLookup(cfg, m1, call.outcome).outcomes == []
  {
    var m0 := SimplyDisturbed(m, call.idle);
    BornFrom(m, call.idle);
    ExpiredStartsAnew(cfg, m0.(mode := HalfOpen), call.gate);
    BornFrom(SimpleLookup(cfg, m0.(mode := HalfOpen), call.gate), call.probing);
    StillEmpty(cfg, SimpleGate(cfg, m, call).0, call.outcome);
  }

  /** If one failure trips, or nothing does, no call leaves the breaker half-open. */
  lemma NoCallStaysHalfOpen(cfg: Config, m: Simple, call: Call, from: int)
    requires CallTimely(cfg, call, from)
    requires m.mode == Closed || (m.mode == Open && TripsAtOnce(cfg))
    requires TripsAtOnce(cfg) || NeverTrips(cfg)
    ensures var after := SimpleServe(cfg, m, call).0.mode; after == Closed || (after == Open && TripsAtOnce(cfg))
  {
    var (m1, gate) := SimpleGate(cfg, m, call);
    BornFrom(m, call.idle);
    if gate == Pass {
      if m.mode == Open {
        PhaseStartsAnew(cfg, m, call, from);
        OneFailureTripsIff(cfg);
        assert [] + [false] == [false];
      } else {
        LookupKeepsMode(cfg, SimplyDisturbed(m, call.idle), call.gate);
        if NeverTrips(cfg) {
          NeverTripsMeans(cfg, SimpleLookup(cfg, m1, call.outcome).outcomes + [call.ok]);
        }
      }
      BornFrom(SimpleLookup(cfg, m1, call.outcome), call.recording);
      LookupKeepsMode(cfg, m1, call.outcome);
      LookupKeepsMode(cfg, SimpleRecord(cfg, m1, call).0, call.final);
    }
  }

  /** Then every phase has one execution at most. */
  lemma {:induction false} OneExecutionAPhase(
    cfg: Config, s: State, x: Member, m: Simple, before: nat, calls: seq<Call>, from: int)
    requires Represents(s, x, m, from) && from > cfg.interval && OneAfterAnother(cfg, calls, from)
    requires m.mode == Closed || (m.mode == Open && TripsAtOnce(cfg))
    requires NeverTrips(cfg) || (TripsAtOnce(cfg) && cfg.halfOpenLimit >= 1)
    ensures KeepsLimit(cfg, s, before, calls, from)
    decreases |calls|
  {
    if calls != [] {
      var call := calls[0];
      NoCallStaysHalfOpen(cfg, m, call, from);
      var y := EnterRefines(cfg, s, x, m, call, from);
      if m.mode == Closed {
        ClosedStaysClosed(cfg, m, call);
      }
      y := CallRefines(cfg, s, x, m, call, from);
      var n := Executions(cfg, s, before, call);
      OneExecutionAPhase(
        cfg, Serve(cfg, s, call).0, y, SimpleServe(cfg, m, call).0, n, calls[1..], End(call.final));
    }
  }

  lemma ClosedStaysClosed(cfg: Config, m: Simple, call: Call)
    requires |call.gate| >= 2 && m.mode == Closed
    ensures SimpleGate(cfg, m, call).0.mode == Closed
  {
    BornFrom(m, call.idle);
    LookupKeepsMode(cfg, SimplyDisturbed(m, call.idle), call.gate);
  }

  // ---------------------------------------------------------------- when it does not

  /** An expired bucket: the failing call is judged alone. */
  lemma FailsAlone(cfg: Config, m: Simple, t: int)
    requires cfg.retries >= 2 && 0 <= cfg.interval < t && m.mode != Closed && m.born < t - cfg.interval
    ensures SimpleServe(cfg, m, Failing(cfg, t, []))
         == if Trips(cfg, [false]) then (Simple(Open, t, [false]), Tripped) else (Simple(HalfOpen, t, [false]), Threw)
    ensures SimpleGate(cfg, m, Failing(cfg, t, [])).1 == Pass
    ensures SimpleGate(cfg, m, Failing(cfg, t, [])).0.mode == HalfOpen
  {
    assert [] + [false] == [false];
    if m.mode == HalfOpen {
      FailingSimply(cfg, m, t, [], []);
    } else {
      var m1 := Simple(HalfOpen, t, []);
      assert SimpleGate(cfg, m, Failing(cfg, t, [])) == (m1, Pass);
      FailingSimply(cfg, m1, t, [], []);
    }
  }

  /** A failing call while the breaker is half-open, or its open window over, with an expired bucket. */
  lemma FailureRunsHalfOpen(cfg: Config, s: State, x: Member, m: Simple, before: nat, from: int, t: int)
    returns (call: Call, y: Member)
    requires Represents(s, x, m, from) && from <= t && m.mode != Closed && m.born < t - cfg.interval
    requires cfg.retries >= 2 && 0 <= cfg.interval < t
    ensures && !call.ok && Complete(cfg, call) && CallTimely(cfg, call, from) && End(call.final) == t
            && RunsHalfOpen(cfg, s, call)
            && Executions(cfg, s, before, call) == (if m.mode == HalfOpen then before else 0) + 1
            && Serve(cfg, s, call).1 == (if Trips(cfg, [false]) then Tripped else Threw)
            && Represents(Serve(cfg, s, call).0, y,
                          Simple(if Trips(cfg, [false]) then Open else HalfOpen, t, [false]), t)
  {
    call := Failing(cfg, t, []);
    FailingTimely(cfg, t, []);
    FailsAlone(cfg, m, t);
    LaterStillRepresents(s, x, m, from, t);
    y := EnterRefines(cfg, s, x, m, call, t);
    y := CallRefines(cfg, s, x, m, call, t);
  }

  lemma RunUnfolds(cfg: Config, s: State, before: nat, call: Call, rest: seq<Call>, from: int)
    requires CallTimely(cfg, call, from) && OneAfterAnother(cfg, rest, End(call.final))
    ensures OneAfterAnother(cfg, [call] + rest, from)
    ensures var n, u := Executions(cfg, s, before, call), Serve(cfg, s, call).0;
            var (t, replies) := ServeAll(cfg, u, rest, End(call.final));
            && ServeAll(cfg, s, [call] + rest, from) == (t, [Serve(cfg, s, call).1] + replies)
            && (KeepsLimit(cfg, s, before, [call] + rest, from)
                <==> (RunsHalfOpen(cfg, s, call) ==> n <= cfg.halfOpenLimit)
                     && KeepsLimit(cfg, u, n, rest, End(call.final)))
  {
    assert ([call] + rest)[1..] == rest;
  }

  function Threws(n: nat): seq<Reply> {
    if n == 0 then [] else [Threw] + Threws(n - 1)
  }

  predicate AllFail(calls: seq<Call>) {
    forall i | 0 <= i < |calls| :: !calls[i].ok
  }

  /** All n calls fail, run and throw, the breaker stays half-open, and the limit only holds up to their number. */
  ghost predicate RunsOn(cfg: Config, s: State, before: nat, calls: seq<Call>, from: int, n: nat) {
    && OneAfterAnother(cfg, calls, from) && |calls| == n && AllFail(calls)
    && ServeAll(cfg, s, calls, from).1 == Threws(n) && ServeAll(cfg, s, calls, from).0.mode == HalfOpen
    && (KeepsLimit(cfg, s, before, calls, from) ==> n == 0 || before + n <= cfg.halfOpenLimit)
  }

  lemma OneMoreRuns(cfg: Config, s: State, before: nat, call: Call, from: int, rest: seq<Call>, n: nat)
    requires CallTimely(cfg, call, from) && RunsHalfOpen(cfg, s, call) && !call.ok && Serve(cfg, s, call).1 == Threw
    requires Executions(cfg, s, before, call) == before + 1
    requires RunsOn(cfg, Serve(cfg, s, call).0, before + 1, rest, End(call.final), n)
    ensures RunsOn(cfg, s, before, [call] + rest, from, n + 1)
  {
    RunUnfolds(cfg, s, before, call, rest, from);
  }

  /**
   * If one failure does not trip, a half-open breaker with an expired bucket runs n failing calls for
   * every n, whatever halfOpenLimit is.
   */
  lemma {:induction false} HalfOpenRunsOn(
    cfg: Config, s: State, x: Member, m: Simple, before: nat, from: int, t: int, n: nat) returns (calls: seq<Call>)
    requires Represents(s, x, m, from) && from <= t && m.mode == HalfOpen && m.born < t - cfg.interval
    requires cfg.retries >= 2 && 0 <= cfg.interval < t && !Trips(cfg, [false])
    ensures RunsOn(cfg, s, before, calls, from, n)
    decreases n
  {
    calls := [];
    if n > 0 {
      var call, y := FailureRunsHalfOpen(cfg, s, x, m, before, from, t);
      var u := Serve(cfg, s, call).0;
      var rest := HalfOpenRunsOn(cfg, u, y, Simple(HalfOpen, t, [false]), before + 1, t, t + cfg.interval + 1, n - 1);
      OneMoreRuns(cfg, s, before, call, from, rest, n - 1);
      calls := [call] + rest;
    }
  }

  lemma FailsClosed(cfg: Config, t: int, outcomes: seq<bool>)
    requires cfg.retries >= 2 && 0 <= cfg.interval < t
    ensures var failed := outcomes + [false];
            SimpleServe(cfg, Simple(Closed, t, outcomes), Failing(cfg, t, []))
            == if Trips(cfg, failed) then (Simple(Open, t, failed), Tripped) else (Simple(Closed, t, failed), Threw)
  {
    var call, m := Failing(cfg, t, []), Simple(Closed, t, outcomes);
    assert SimpleLookup(cfg, m, call.gate) == m;
    var m1 := SimpleRecord(cfg, m, call).0;
    assert SimpleLookup(cfg, m1, call.final) == m1;
  }

  /** After the calls the rest starts in state u, with n executions counted. */
  ghost predicate GoesOn(
    cfg: Config, s: State, before: nat, calls: seq<Call>, t: int, u: State, n: nat, rest: seq<Call>)
  {
    OneAfterAnother(cfg, rest, t) ==>
      && OneAfterAnother(cfg, calls + rest, t)
      && (KeepsLimit(cfg, s, before, calls + rest, t) ==> KeepsLimit(cfg, u, n, rest, t))
  }

  ghost predicate LeadsTo(cfg: Config, s: State, before: nat, calls: seq<Call>, t: int, u: State, n: nat) {
    forall rest :: GoesOn(cfg, s, before, calls, t, u, n, rest)
  }

  lemma LeadsFurther(
    cfg: Config, s: State, before: nat, call: Call, t: int, u: State, n: nat, calls: seq<Call>, v: State, l: nat)
    requires CallTimely(cfg, call, t) && End(call.final) == t
    requires u == Serve(cfg, s, call).0 && n == Executions(cfg, s, before, call) && LeadsTo(cfg, u, n, calls, t, v, l)
    ensures LeadsTo(cfg, s, before, [call] + calls, t, v, l)
  {
    forall rest ensures GoesOn(cfg, s, before, [call] + calls, t, v, l, rest) {
      if OneAfterAnother(cfg, rest, t) {
        assert GoesOn(cfg, u, n, calls, t, v, l, rest);
        RunUnfolds(cfg, s, before, call, calls + rest, t);
        assert [call] + calls + rest == [call] + (calls + rest);
      }
    }
  }

  lemma LeadsNowhere(cfg: Config, s: State, before: nat, t: int)
    ensures LeadsTo(cfg, s, before, [], t, s, before)
  {
    forall rest ensures GoesOn(cfg, s, before, [], t, s, before, rest) {
      assert [] + rest == rest;
    }
  }

  /** A closed breaker that has seen j failures trips at the k-th. */
  lemma {:induction false} BurstTrips(cfg: Config, s: State, x: Member, before: nat, t: int, j: nat, k: nat)
    returns (calls: seq<Call>, u: State, y: Member, n: nat)
    requires Represents(s, x, Simple(Closed, t, Failures(j)), t) && j < k
    requires cfg.retries >= 2 && 0 <= cfg.interval < t
    requires Trips(cfg, Failures(k)) && forall i | 0 < i < k :: !Trips(cfg, Failures(i))
    ensures Represents(u, y, Simple(Open, t, Failures(k)), t) && LeadsTo(cfg, s, before, calls, t, u, n)
    decreases k - j
  {
    var call, m := Failing(cfg, t, []), Simple(Closed, t, Failures(j));
    FailingTimely(cfg, t, []);
    FailsClosed(cfg, t, Failures(j));
    assert Failures(j + 1) == Failures(j) + [false];
    y := CallRefines(cfg, s, x, m, call, t);
    u, n := Serve(cfg, s, call).0, Executions(cfg, s, before, call);
    if j + 1 < k {
      var more, v, z, l := BurstTrips(cfg, u, y, n, t, j + 1, k);
      LeadsFurther(cfg, s, before, call, t, u, n, more, v, l);
      calls, u, y, n := [call] + more, v, z, l;
    } else {
      LeadsNowhere(cfg, u, n, t);
      LeadsFurther(cfg, s, before, call, t, u, n, [], u, n);
      calls := [call] + [];
    }
  }

  /** A call that opens a half-open phase, and n more failing ones. */
  lemma PhaseRunsOn(cfg: Config, s: State, x: Member, m: Simple, before: nat, from: int, t: int, n: nat)
    returns (calls: seq<Call>)
    requires Represents(s, x, m, from) && from <= t && m.mode == Open && m.born < t - cfg.interval
    requires cfg.retries >= 2 && 0 <= cfg.interval < t && (n == 0 || !Trips(cfg, [false]))
    ensures OneAfterAnother(cfg, calls, from)
    ensures KeepsLimit(cfg, s, before, calls, from) ==> n + 1 <= cfg.halfOpenLimit
  {
    var call, y := FailureRunsHalfOpen(cfg, s, x, m, before, from, t);
    var rest := [];
    if n > 0 {
      rest := HalfOpenRunsOn(
        cfg, Serve(cfg, s, call).0, y, Simple(HalfOpen, t, [false]), 1, t, t + cfg.interval + 1, n);
    }
    RunUnfolds(cfg, s, before, call, rest, from);
    calls := [call] + rest;
  }

  /** The run that breaks the limit: failures until it trips, and after the open window n + 1 more. */
  lemma TripsAndRunsOn(cfg: Config, s: State, x: Member, t: int, n: nat) returns (calls: seq<Call>)
    requires Represents(s, x, Simple(Closed, t, []), t) && cfg.retries >= 2 && 0 <= cfg.interval < t
    requires !NeverTrips(cfg) && (n == 0 || !Trips(cfg, [false]))
    ensures OneAfterAnother(cfg, calls, t)
    ensures KeepsLimit(cfg, s, 0, calls, t) ==> n + 1 <= cfg.halfOpenLimit
  {
    var k := EnoughFailuresTrip(cfg);
    var burst, u, y, before := BurstTrips(cfg, s, x, 0, t, 0, k);
    var phase := PhaseRunsOn(cfg, u, y, Simple(Open, t, Failures(k)), before, t, t + cfg.interval + 1, n);
    assert GoesOn(cfg, s, 0, burst, t, u, before, phase);
    calls := burst + phase;
  }

  lemma RunBreaksLimit(cfg: Config, n: nat)
    requires cfg.interval >= 0 && cfg.retries >= 2 && !NeverTrips(cfg) && (n == 0 || !Trips(cfg, [false]))
    requires LimitHolds(cfg)
    ensures n + 1 <= cfg.halfOpenLimit
  {
    var t := cfg.interval + 1;
    var unregistered := State(Closed, map[], map[], 0);
    RegistrationForgets(unregistered, t);
    var calls := TripsAndRunsOn(cfg, Registered(unregistered, t), 0, t, n);
  }

  /** halfOpenLimit bounds the executions of every half-open phase exactly if nothing trips, or one failure does. */
  lemma HalfOpenLimitIff(cfg: Config)
    requires cfg.interval >= 0 && cfg.retries >= 2
    ensures LimitHolds(cfg) <==> NeverTrips(cfg) || (TripsAtOnce(cfg) && cfg.halfOpenLimit >= 1)
  {
    OneFailureTripsIff(cfg);
    if NeverTrips(cfg) || (TripsAtOnce(cfg) && cfg.halfOpenLimit >= 1) {
      forall s, t, calls | Tidy(s, t) && t > cfg.interval && OneAfterAnother(cfg, calls, t)
        ensures KeepsLimit(cfg, Registered(s, t), 0, calls, t)
      {
        RegistrationForgets(s, t);
        OneExecutionAPhase(cfg, Registered(s, t), s.nextUid, Simple(Closed, t, []), 0, calls, t);
      }
    } else if LimitHolds(cfg) {
      RunBreaksLimit(cfg, 0);
      RunBreaksLimit(cfg, cfg.halfOpenLimit);
      assert false;
    }
  }
}
