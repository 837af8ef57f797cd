/** Which outcomes trip the breaker, in terms of its configuration. */
module CircuitThresholds {
  import opened Circuit

  /** Once something failed: enough failures, and as many as the volume or the share asks for. */
  lemma TripsMeans(cfg: Config, outcomes: seq<bool>)
    requires Count(outcomes, false) > 0
    ensures var failures, successes := Count(outcomes, false), Count(outcomes, true);
            Trips(cfg, outcomes)
            <==> && failures >= cfg.minimumFailures
                 && failures as real
                    >= cfg.threshold * if cfg.strategy.Volume? then 1.0 else (failures + successes) as real
  {
    RatioMeets(Count(outcomes, false) as real, (Count(outcomes, false) + Count(outcomes, true)) as real, cfg.threshold);
  }

  lemma RatioMeets(part: real, whole: real, threshold: real)
    requires whole > 0.0
    ensures part / whole >= threshold <==> part >= threshold * whole
  {
    assert part == (part / whole) * whole;
    if part / whole >= threshold {
      assert (part / whole - threshold) * whole >= 0.0;
    } else {
      assert (threshold - part / whole) * whole > 0.0;
    }
  }

  /** A share of failures never exceeds one, so a percentage threshold above one never trips. */
  predicate NeverTrips(cfg: Config) {
    cfg.strategy.Percentage? && cfg.threshold > 1.0
  }

  /** One failure is enough. */
  predicate TripsAtOnce(cfg: Config) {
    cfg.minimumFailures <= 1 && cfg.threshold <= 1.0
  }

  lemma {:induction false} CountsAll(outcomes: seq<bool>)
    ensures Count(outcomes, false) + Count(outcomes, true) == |outcomes|
  {
    if outcomes != [] {
      CountsAll(outcomes[..|outcomes| - 1]);
    }
  }

  lemma NeverTripsMeans(cfg: Config, outcomes: seq<bool>)
    requires NeverTrips(cfg)
    ensures !Trips(cfg, outcomes)
  {
    var failures, all := Count(outcomes, false), Count(outcomes, false) + Count(outcomes, true);
    if all != 0 {
      RatioMeets(failures as real, all as real, 1.0);
      assert failures as real / all as real <= 1.0;
    }
  }

  function Failures(n: nat): (outcomes: seq<bool>)
    ensures |outcomes| == n
  {
    if n == 0 then [] else Failures(n - 1) + [false]
  }

  lemma {:induction false} FailuresCount(n: nat)
    ensures Count(Failures(n), false) == n && Count(Failures(n), true) == 0
  {
    if n > 0 {
      FailuresCount(n - 1);
      CountSnoc(Failures(n - 1), false, false);
      CountSnoc(Failures(n - 1), false, true);
    }
  }

  lemma WholeShare(whole: real)
    requires whole > 0.0
    ensures whole / whole == 1.0
  {
  }

  lemma FailuresTripIff(cfg: Config, n: nat)
    requires n > 0 && !NeverTrips(cfg)
    ensures Trips(cfg, Failures(n)) <==>
              n >= cfg.minimumFailures && (cfg.strategy.Volume? ==> n as real >= cfg.threshold)
  {
    FailuresCount(n);
    WholeShare(n as real);
  }

  lemma OneFailureTripsIff(cfg: Config)
    ensures Trips(cfg, [false]) <==> TripsAtOnce(cfg)
  {
    FailuresCount(1);
    assert Failures(1) == [false];
    WholeShare(1.0);
  }

  /** Unless it never trips, a breaker trips after some number of failures in one bucket. */
  lemma EnoughFailuresTrip(cfg: Config) returns (k: nat)
    requires !NeverTrips(cfg)
    ensures k > 0 && Trips(cfg, Failures(k)) && forall j | 0 < j < k :: !Trips(cfg, Failures(j))
  {
    var needed := cfg.threshold.Floor + 1;
    var n := 1;
    if n < cfg.minimumFailures { n := cfg.minimumFailures; }
    if n < needed { n := needed; }
    FailuresTripIff(cfg, n);
    k := FirstTrip(cfg, 1, n);
  }

  lemma {:induction false} FirstTrip(cfg: Config, j: nat, n: nat) returns (k: nat)
    requires 0 < j <= n && Trips(cfg, Failures(n)) && forall i | 0 < i < j :: !Trips(cfg, Failures(i))
    ensures j <= k <= n && Trips(cfg, Failures(k)) && forall i | 0 < i < k :: !Trips(cfg, Failures(i))
    decreases n - j
  {
    if Trips(cfg, Failures(j)) {
      k := j;
    } else {
      k := FirstTrip(cfg, j + 1, n);
    }
  }
}
