/** What an outcome does that arrives while the breaker is open: calls that overlap a trip. */
module CircuitOverlap {
  import opened SortedSets
  import opened RedisStore
  import opened Circuit

  /** The clock readings of an outcome that is counted from time `from` on. */
  ghost predicate OutcomeTimely(cfg: Config, call: Call, from: int) {
    && Timely(cfg, call.outcome, from) && |call.recovery| >= cfg.retries
    && End(call.outcome) <= call.failedAt && StampedBy(call.recording, call.failedAt)
  }

  ghost predicate GateTimely(cfg: Config, call: Call, from: int) {
    from <= call.gateAt && StampedBy(call.idle, call.gateAt) && Timely(cfg, call.gate, call.gateAt)
  }

  /**
   * An outcome that arrives while the breaker is open, inside its open window or not, closes it if it
   * is a success and leaves it open if it is a failure.  So a call inside the window gets in exactly
   * if the late outcome is a success.
   */
  lemma LateOutcomeDecides(cfg: Config, s: State, x: Member, m: Simple, late: Call, next: Call, from: int)
    requires Represents(s, x, m, from) && m.mode == Open && OutcomeTimely(cfg, late, from)
    requires GateTimely(cfg, next, late.failedAt) && next.gateAt <= m.born + cfg.interval
    ensures var t := Record(cfg, s, late).0;
            && t.mode == (if late.ok then Closed else Open)
            && Enter(cfg, t, next).1 == if late.ok then Pass else Stop
  {
    var y := RecordRefines(cfg, s, x, m, late, from);
    var t, m1 := Record(cfg, s, late).0, SimpleRecord(cfg, m, late).0;
    LookupGrows(cfg, m, late.outcome);
    BornFrom(SimpleLookup(cfg, m, late.outcome), late.recording);
    y := BackgroundRefines(t, y, m1, next.idle, next.gateAt);
    BornFrom(m1, next.idle);
    if late.ok {
      y := PassClosedRefines(cfg, Disturbed(t, next.idle), y, SimplyDisturbed(m1, next.idle), next);
    } else {
      ActiveIsNewest(cfg, Disturbed(t, next.idle), y, next.gateAt);
    }
  }

  lemma LookupGrows(cfg: Config, m: Simple, rs: seq<Reading>)
    requires |rs| >= 2 && rs[0].look <= rs[0].create && cfg.interval >= 0
    ensures SimpleLookup(cfg, m, rs).born >= m.born && SimpleLookup(cfg, m, rs).mode == m.mode
  {
    BornFrom(m, rs[0].before);
    BornFrom(Simple(m.mode, rs[0].create, []), rs[1].before);
  }

  /**
   * A call admitted before a trip undoes it by succeeding: call a gets in, call b runs and trips the
   * breaker, a succeeds, and call c gets in although b's open window is not over.
   */
  lemma LateSuccessReopens(cfg: Config, s: State, x: Member, m: Simple, a: Call, b: Call, c: Call, from: int)
    returns (newest: Member)
    requires Represents(s, x, m, from) && m.mode == Closed && CallTimely(cfg, a, from) && a.ok
    requires CallTimely(cfg, b, a.canaryAt) && FreshCanaryAllowed(cfg, a) && FreshCanaryAllowed(cfg, b)
    requires Serve(cfg, Enter(cfg, s, a).0, b).1 == Tripped
    requires OutcomeTimely(cfg, a, End(b.final)) && GateTimely(cfg, c, a.failedAt)
    ensures var tripped := Serve(cfg, Enter(cfg, s, a).0, b).0;
            && Enter(cfg, s, a).1 == Pass && tripped.mode == Open && IsTop(tripped, newest)
            && (c.gateAt <= tripped.timeline[newest] + cfg.interval ==>
                  Enter(cfg, Record(cfg, tripped, a).0, c).1 == Pass)
  {
    newest := EnterRefines(cfg, s, x, m, a, from);
    BornFrom(m, a.idle);
    var s1, m1 := Enter(cfg, s, a).0, SimpleGate(cfg, m, a).0;
    newest := CallRefines(cfg, s1, newest, m1, b, a.canaryAt);
    var tripped, m2 := Serve(cfg, s1, b).0, SimpleServe(cfg, m1, b).0;
    TrippedIsOpen(cfg, m1, b);
    if c.gateAt <= tripped.timeline[newest] + cfg.interval {
      LateOutcomeDecides(cfg, tripped, newest, m2, a, c, End(b.final));
    }
  }

  lemma TrippedIsOpen(cfg: Config, m: Simple, call: Call)
    requires |call.gate| >= 2 && |call.outcome| >= 2 && |call.final| >= 2 && SimpleServe(cfg, m, call).1 == Tripped
    ensures SimpleServe(cfg, m, call).0.mode == Open
  {
    var m1 := SimpleRecord(cfg, SimpleGate(cfg, m, call).0, call).0;
    BornFrom(m1, call.final[0].before);
    BornFrom(Simple(m1.mode, call.final[0].create, []), call.final[1].before);
  }
}
