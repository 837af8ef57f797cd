/**
 * Which contender takes a race.
 *
 * Promise.race gives a race to the first contender of the list that has settled.  Here flags in the
 * registry lag behind, so the race may pass that contender by.  This module says for every list,
 * new contenders and primitive values included, who takes the race and exactly when that is the
 * contender Promise.race would choose.
 */
module RaceWinner {
  import opened Race

  /** Settled when the race starts; a value that is no promise counts as settled. */
  predicate HasSettled(outcomes: map<Promise, Outcome>, c: Contender) {
    c.Primitive? || c.p in outcomes
  }

  /** The first settled contender from contender i on, or the length of the list. */
  function FirstSettled(outcomes: map<Promise, Outcome>, cs: seq<Contender>, i: nat): (k: nat)
    requires i <= |cs|
    ensures i <= k <= |cs| && forall m | i <= m < k :: !HasSettled(outcomes, cs[m])
    ensures k < |cs| ==> HasSettled(outcomes, cs[k])
    decreases |cs| - i
  {
    if i == |cs| || HasSettled(outcomes, cs[i]) then i else FirstSettled(outcomes, cs, i + 1)
  }

  /** Where the first pass stops: the first contender, from i on, that is not registered and unflagged. */
  function FirstStop(s: State, cs: seq<Contender>, i: nat): (k: nat)
    requires i <= |cs|
    ensures i <= k <= |cs| && forall m | i <= m < k :: KnownUnsettled(s, cs[m])
    ensures k < |cs| ==> !KnownUnsettled(s, cs[k])
    decreases |cs| - i
  {
    if i == |cs| || !KnownUnsettled(s, cs[i]) then i else FirstStop(s, cs, i + 1)
  }

  predicate WatcherOfOne(j: Job, cs: seq<Contender>) {
    j.Fire? && Thenable(j.p) in cs
  }

  /** The first due watcher of one of the contenders, or the number of jobs. */
  function FirstDue(jobs: seq<Job>, cs: seq<Contender>): (k: nat)
    ensures k <= |jobs| && forall m | 0 <= m < k :: !WatcherOfOne(jobs[m], cs)
    ensures k < |jobs| ==> WatcherOfOne(jobs[k], cs)
  {
    if jobs == [] || WatcherOfOne(jobs[0], cs) then 0 else FirstDue(jobs[1..], cs) + 1
  }

  datatype Taker = Nobody | By(c: Contender)

  function At(cs: seq<Contender>, k: nat): Taker
    requires k <= |cs|
  {
    if k < |cs| then By(cs[k]) else Nobody
  }

  /** From contender i on the first settled one takes the race, or, failing that, the first one of all. */
  function FromYield(outcomes: map<Promise, Outcome>, cs: seq<Contender>, i: nat): Taker
    requires i <= |cs|
  {
    var m := FirstSettled(outcomes, cs, i);
    At(cs, if m < |cs| then m else FirstSettled(outcomes, cs, 0))
  }

  /** The contender whose watcher is due first. */
  function FromJobs(jobs: seq<Job>, cs: seq<Contender>): Taker {
    var d := FirstDue(jobs, cs);
    if d < |jobs| then By(Thenable(jobs[d].p)) else Nobody
  }

  /**
   * Who takes a race that starts in state s.  The pass stops at contender k.  If that one is new, the
   * yield brings all flags up to date; the first settled contender from k on takes the race, or,
   * failing that, the first one the second pass finds flagged.  If the pass does not stop at all,
   * the first watcher due decides.
   */
  function TakerOf(s: State, cs: seq<Contender>): Taker {
    var k := FirstStop(s, cs, 0);
    if k == |cs| then FromJobs(s.jobs, cs) else FromYield(s.outcomes, cs, k)
  }

  /** The race has, or is bound to get, the outcome of contender c. */
  predicate TakenBy(t: State, r: RaceId, c: Contender) {
    r in t.races &&
    var f := t.races[r].phase;
    match c
    case Primitive(v) => f == Finished(Fulfilled(v))
    case Thenable(p) =>
      f == Following(p) || (p in t.outcomes && (f == Locked(t.outcomes[p]) || f == Finished(t.outcomes[p])))
  }

  ghost predicate Ends(t: State, r: RaceId, taker: Taker) {
    match taker
    case Nobody => r in t.races && t.races[r].phase.Registered?
    case By(c) => TakenBy(t, r, c)
  }

  /** The race is undecided, and a job is due that will take it further. */
  ghost predicate OnItsWay(t: State, r: RaceId) {
    && r in t.races
    && (t.races[r].phase.Yielded? ==> Resume(r) in t.jobs)
    && (t.races[r].phase.Registered? ==> FirstDue(t.jobs, t.races[r].contenders) < |t.jobs|)
    && (t.races[r].phase.Yielded? || t.races[r].phase.Registered?)
  }

  // ---------------------------------------------------------------- any continuation

  /** The state after more actions. */
  function After(s: State, more: seq<Action>): State
    decreases |more|
  {
    if more == [] then s else After(Step(s, more[0]), more[1..])
  }

  lemma {:induction false} ExecGoesOn(acts: seq<Action>, more: seq<Action>)
    ensures Exec(Initial, acts + more) == After(Exec(Initial, acts), more)
    decreases |more|
  {
    if more == [] {
      assert acts + more == acts;
    } else {
      assert acts + more == (acts + [more[0]]) + more[1..];
      ExecSnoc(acts, more[0]);
      ExecGoesOn(acts + [more[0]], more[1..]);
    }
  }

  lemma ExecSnoc(acts: seq<Action>, a: Action)
    ensures Exec(Initial, acts + [a]) == Step(Exec(Initial, acts), a)
  {
    assert (acts + [a])[..|acts|] == acts;
  }

  /**
   * The action settles and cancels no contender of race r, and registers none that was new and has
   * settled, unless it is race r's own.
   */
  predicate Undisturbed(s: State, r: RaceId, cs: seq<Contender>, a: Action) {
    && (a.Settle? ==> Thenable(a.p) !in cs)
    && (a.CancelAll? ==> Thenable(a.p) !in cs)
    && ((a.RunJob? && s.jobs != [] && s.jobs[0] == Resume(r))
        || forall i | 0 <= i < |cs| :: KnownTo(Step(s, a), cs[i]) && cs[i].p in s.outcomes ==> KnownTo(s, cs[i]))
  }

  predicate UndisturbedRun(s: State, r: RaceId, cs: seq<Contender>, more: seq<Action>)
    decreases |more|
  {
    more != [] ==> Undisturbed(s, r, cs, more[0]) && UndisturbedRun(Step(s, more[0]), r, cs, more[1..])
  }

  // ---------------------------------------------------------------- during a yield

  /** Every settled contender the registry knows is flagged before the race resumes. */
  ghost predicate Settling(s: State, r: RaceId) {
    && r in s.races && s.races[r].phase.Yielded? && Resume(r) in s.jobs
    && forall p | Thenable(p) in s.races[r].contenders && p in s.records && p in s.outcomes :: FlaggedInTime(s, r, p)
  }

  ghost predicate FlaggedInTime(s: State, r: RaceId, p: Promise)
    requires p in s.records
  {
    s.records[p].settled || BeforeEach(s.jobs, Fire(p), Resume(r))
  }

  lemma BeforeEachGrows(jobs: seq<Job>, more: seq<Job>, a: Job, b: Job)
    requires BeforeEach(jobs, a, b) && jobs <= more && forall k | |jobs| <= k < |more| :: more[k] != b
    ensures BeforeEach(more, a, b)
  {
    forall k | 0 <= k < |more| && more[k] == b ensures a in more[..k] {
      assert more[..k] == jobs[..k];
    }
  }

  /** How an action moves the jobs: all but the one it runs stay in place, and others are appended. */
  ghost predicate JobsMove(s: State, t: State, a: Action) {
    && JobsLeft(s, a) <= t.jobs
    && forall k | |JobsLeft(s, a)| <= k < |t.jobs| :: NewJob(s, t, a, t.jobs[k])
  }

  function JobsLeft(s: State, a: Action): seq<Job> {
    if a.RunJob? && s.jobs != [] then s.jobs[1..] else s.jobs
  }

  /** A watcher is appended on settlement or registration, a resumption by its race. */
  predicate NewJob(s: State, t: State, a: Action, j: Job) {
    match j
    case Resume(q) => (a.Start? && a.r == q && q !in s.races) || (a.RunJob? && s.jobs != [] && s.jobs[0] == Resume(q))
    case Fire(p) => (a.Settle? && a.p == p) || (p !in s.records && p in t.records)
  }

  lemma StepMovesJobs(s: State, a: Action)
    requires Inv(s)
    ensures JobsMove(s, Step(s, a), a)
  {
    if a.Start? && a.r !in s.races && |a.contenders| > 1 {
      StartInTransit(s, a.r, a.contenders);
      ScanMindsItsOwn(s.(races := s.races[a.r := Entrant(a.contenders, Never)]), a.r, 0);
    } else if a.RunJob? && s.jobs != [] && s.jobs[0].Resume? {
      ResumeInTransit(s, s.jobs[0].r);
      ResumeMindsItsOwn(s, s.jobs[0].r);
    }
  }

  /** An undisturbed action that is not race r's own leaves a yielding race where it is. */
  lemma YieldStays(s: State, r: RaceId, a: Action)
    requires Inv(s) && r in s.races && s.races[r].phase.Yielded?
    requires !(a.RunJob? && s.jobs != [] && s.jobs[0] == Resume(r))
    ensures r in Step(s, a).races && Step(s, a).races[r] == s.races[r]
  {
    match a
    case Start(x, cs) => if x !in s.races { StartExtends(s, x, cs); }
    case RunJob =>
      if s.jobs != [] && s.jobs[0].Resume? {
        ResumeInTransit(s, s.jobs[0].r);
        ResumeMindsItsOwn(s, s.jobs[0].r);
      }
    case _ =>
  }

  lemma WatcherStaysInTime(s: State, r: RaceId, a: Action, p: Promise)
    requires Inv(s) && p in s.records && p in s.outcomes && FlaggedInTime(s, r, p) && r in s.races
    requires !(a.RunJob? && s.jobs != [] && s.jobs[0] == Resume(r))
    ensures p in Step(s, a).records && FlaggedInTime(Step(s, a), r, p)
  {
    var t := Step(s, a);
    StepExtends(s, a);
    StepMovesJobs(s, a);
    if !s.records[p].settled && !(a.RunJob? && s.jobs != [] && s.jobs[0] == Fire(p)) {
      if a.RunJob? && s.jobs != [] {
        BeforeEachTail(s.jobs, Fire(p), Resume(r));
      }
      BeforeEachGrows(JobsLeft(s, a), t.jobs, Fire(p), Resume(r));
    }
  }

  lemma ResumeStaysDue(s: State, r: RaceId, a: Action)
    requires Inv(s) && Resume(r) in s.jobs && !(a.RunJob? && s.jobs[0] == Resume(r))
    ensures Resume(r) in Step(s, a).jobs
  {
    StepMovesJobs(s, a);
    var k :| 0 <= k < |s.jobs| && s.jobs[k] == Resume(r);
    var l := if a.RunJob? then k - 1 else k;
    assert JobsLeft(s, a)[l] == Resume(r);
  }

  /** Outcomes of the contenders do not change. */
  lemma OutcomesStay(s: State, r: RaceId, cs: seq<Contender>, a: Action, i: nat)
    requires Inv(s) && Undisturbed(s, r, cs, a) && i <= |cs|
    ensures FromYield(Step(s, a).outcomes, cs, i) == FromYield(s.outcomes, cs, i)
  {
    var t := Step(s, a);
    StepOutcomes(s, a);
    SameFirstSettled(s.outcomes, t.outcomes, cs, i);
    SameFirstSettled(s.outcomes, t.outcomes, cs, 0);
  }

  lemma StepOutcomes(s: State, a: Action)
    requires Inv(s)
    ensures forall p | p in Step(s, a).outcomes && p !in s.outcomes :: a.Settle? && a.p == p
    ensures forall p | p in s.outcomes :: p in Step(s, a).outcomes
  {
    StepExtends(s, a);
    if a.Start? && a.r !in s.races && |a.contenders| > 1 {
      StartInTransit(s, a.r, a.contenders);
      ScanMindsItsOwn(s.(races := s.races[a.r := Entrant(a.contenders, Never)]), a.r, 0);
    } else if a.RunJob? && s.jobs != [] && s.jobs[0].Resume? {
      ResumeMindsItsOwn(s, s.jobs[0].r);
    }
  }

  lemma {:induction false} SameFirstSettled(
    before: map<Promise, Outcome>, after: map<Promise, Outcome>, cs: seq<Contender>, i: nat)
    requires i <= |cs| && forall m | 0 <= m < |cs| :: HasSettled(before, cs[m]) <==> HasSettled(after, cs[m])
    ensures FirstSettled(before, cs, i) == FirstSettled(after, cs, i)
    decreases |cs| - i
  {
    if i < |cs| && !HasSettled(before, cs[i]) {
      SameFirstSettled(before, after, cs, i + 1);
    }
  }

  // ---------------------------------------------------------------- the race's destiny

  /** The race is bound to be taken by `taker`, as far as can be told from the state it is in. */
  ghost predicate Destined(s: State, r: RaceId, taker: Taker) {
    r in s.races &&
    var cs := s.races[r].contenders;
    match s.races[r].phase
    case Yielded(i, _) => i < |cs| && Settling(s, r) && taker == FromYield(s.outcomes, cs, i)
    case Registered => taker == FromJobs(s.jobs, cs)
    case _ => taker.By? && TakenBy(s, r, taker.c)
  }

  lemma DestinedEnds(s: State, r: RaceId, taker: Taker)
    requires Destined(s, r, taker)
    ensures OnItsWay(s, r) || Ends(s, r, taker)
  {
  }

  /** Among registered contenders the flags tell who has settled. */
  predicate Accurate(s: State, cs: seq<Contender>) {
    forall c | c in cs :: KnownTo(s, c) ==> (s.records[c.p].settled <==> c.p in s.outcomes)
  }

  lemma ResumeFindsAccurate(s: State, r: RaceId)
    requires Inv(s) && Settling(s, r) && s.jobs[0] == Resume(r)
    ensures Accurate(s, s.races[r].contenders)
  {
    forall c | c in s.races[r].contenders && KnownTo(s, c) ensures s.records[c.p].settled <==> c.p in s.outcomes {
      assert RecordSound(s, c.p);
    }
  }

  lemma DueBeforeLast(jobs: seq<Job>, a: Job, b: Job)
    requires jobs != [] && a in jobs && a != b
    requires forall k | 0 <= k < |jobs| :: jobs[k] == b <==> k == |jobs| - 1
    ensures BeforeEach(jobs, a, b)
  {
    var k :| 0 <= k < |jobs| && jobs[k] == a;
    assert jobs[..|jobs| - 1][k] == a;
  }

  /** A race that registers a new contender yields with everything on its way. */
  lemma RegistrationSettles(s: State, r: RaceId, i: nat, p: Promise)
    requires InTransit(s, r) && p !in s.records && Thenable(p) in s.races[r].contenders
    ensures Settling(Registration(s, r, i, p), r)
  {
    var t := Registration(s, r, i, p);
    assert t.jobs[|t.jobs| - 1] == Resume(r);
    forall x | Thenable(x) in s.races[r].contenders && x in t.records && x in t.outcomes && !t.records[x].settled
      ensures BeforeEach(t.jobs, Fire(x), Resume(r))
    {
      assert RecordSound(s, x);
      assert Fire(x) in t.jobs;
      DueBeforeLast(t.jobs, Fire(x), Resume(r));
    }
  }

  /** With all contenders registered and accurate, the second pass takes the first settled one or waits. */
  lemma SecondPassEnds(s: State, r: RaceId)
    requires InTransit(s, r) && forall j | 0 <= j < |s.races[r].contenders| :: KnownTo(s, s.races[r].contenders[j])
    requires Accurate(s, s.races[r].contenders)
    ensures var cs := s.races[r].contenders; Ends(Join(s, r, 0), r, At(cs, FirstSettled(s.outcomes, cs, 0)))
  {
    var cs := s.races[r].contenders;
    JoinEffect(s, r, 0);
    var j := FirstSettled(s.outcomes, cs, 0);
    var t := Join(s, r, 0);
    assert forall m | 0 <= m < |cs| :: cs[m] in cs && KnownTo(s, cs[m]);
    if t.races[r].phase.Locked? {
      var k: nat :| FirstFlagged(s, cs, 0, k) && s.outcomes[cs[k].p] == t.races[r].phase.outcome;
      assert k == j;
    }
  }

  /** No watcher of a contender is due while none has settled. */
  lemma NoneSettledNoneDue(s: State, cs: seq<Contender>)
    requires (forall p :: JobSound(s, p)) && FirstSettled(s.outcomes, cs, 0) == |cs|
    ensures FromJobs(s.jobs, cs) == Nobody
  {
    forall m | 0 <= m < |s.jobs| && s.jobs[m].Fire? ensures Thenable(s.jobs[m].p) !in cs {
      assert JobSound(s, s.jobs[m].p);
    }
  }

  /** Where the pass goes on with accurate flags, the first settled contender from there is the taker. */
  lemma ScanDestined(s: State, r: RaceId, i: nat)
    requires InTransit(s, r) && 0 < i <= |s.races[r].contenders| && Accurate(s, s.races[r].contenders)
    requires forall j | 0 <= j < i :: KnownTo(s, s.races[r].contenders[j])
    ensures Destined(Scan(s, r, i), r, FromYield(s.outcomes, s.races[r].contenders, i))
  {
    var cs := s.races[r].contenders;
    var k := ScanStops(s, r, i);
    assert forall j | 0 <= j < |cs| :: cs[j] in cs;
    SkipUnsettled(s.outcomes, cs, i, k);
    if k == |cs| {
      SecondPassEnds(s, r);
      JoinEffect(s, r, 0);
      if FirstSettled(s.outcomes, cs, 0) == |cs| {
        NoneSettledNoneDue(s, cs);
      }
    } else if cs[k].Thenable? && cs[k].p !in s.records {
      RegistrationSettles(s, r, k, cs[k].p);
    }
  }

  /** So it is when the race resumes. */
  lemma ResumeKeepsDestiny(s: State, r: RaceId, taker: Taker)
    requires Inv(s) && Destined(s, r, taker) && s.jobs != [] && s.jobs[0] == Resume(r)
    ensures Destined(Ran(s), r, taker)
  {
    ResumeInTransit(s, r);
    var i, cs := s.races[r].phase.at, s.races[r].contenders;
    ResumeFindsAccurate(s, r);
    assert RaceSound(s, r) && cs[i] in cs && RecordSound(s, cs[i].p);
    if !s.records[cs[i].p].settled {
      ScanDestined(s.(jobs := s.jobs[1..]), r, i + 1);
      SkipUnsettled(s.outcomes, cs, i, i + 1);
    }
  }

  lemma {:induction false} SkipUnsettled(outcomes: map<Promise, Outcome>, cs: seq<Contender>, i: nat, k: nat)
    requires i <= k <= |cs| && forall m | i <= m < k :: !HasSettled(outcomes, cs[m])
    ensures FirstSettled(outcomes, cs, i) == FirstSettled(outcomes, cs, k)
    decreases k - i
  {
    if i < k {
      SkipUnsettled(outcomes, cs, i + 1, k);
    }
  }

  lemma YieldKeepsDestiny(s: State, r: RaceId, a: Action, taker: Taker)
    requires Inv(s) && Destined(s, r, taker) && s.races[r].phase.Yielded?
    requires Undisturbed(s, r, s.races[r].contenders, a) && !(a.RunJob? && s.jobs[0] == Resume(r))
    ensures Destined(Step(s, a), r, taker)
  {
    var t, cs := Step(s, a), s.races[r].contenders;
    YieldStays(s, r, a);
    ResumeStaysDue(s, r, a);
    StepOutcomes(s, a);
    OutcomesStay(s, r, cs, a, s.races[r].phase.at);
    forall p | Thenable(p) in cs && p in t.records && p in t.outcomes ensures FlaggedInTime(t, r, p) {
      var k :| 0 <= k < |cs| && cs[k] == Thenable(p);
      assert KnownTo(t, cs[k]) ==> KnownTo(s, cs[k]);
      WatcherStaysInTime(s, r, a, p);
    }
  }

  /** Jobs that are no watchers of the contenders do not change which of those is due first. */
  lemma FirstDueStays(jobs: seq<Job>, later: seq<Job>, cs: seq<Contender>)
    requires jobs <= later && forall k | |jobs| <= k < |later| :: !WatcherOfOne(later[k], cs)
    ensures FromJobs(later, cs) == FromJobs(jobs, cs)
    ensures FirstDue(later, cs) == if FirstDue(jobs, cs) < |jobs| then FirstDue(jobs, cs) else |later|
  {
    assert forall k | 0 <= k < |jobs| :: later[k] == jobs[k];
  }

  lemma RegisteredKeepsDestiny(s: State, r: RaceId, a: Action, taker: Taker)
    requires Inv(s) && Destined(s, r, taker) && s.races[r].phase.Registered?
    requires Undisturbed(s, r, s.races[r].contenders, a)
    ensures Destined(Step(s, a), r, taker)
    ensures Step(s, a).races[r].phase.Registered? || Step(s, a).races[r].phase.Locked?
    ensures Step(s, a).races[r].phase.Registered? && FirstDue(s.jobs, s.races[r].contenders) < |s.jobs| ==>
              FirstDue(Step(s, a).jobs, s.races[r].contenders)
              == FirstDue(s.jobs, s.races[r].contenders) - if a.RunJob? then 1 else 0
  {
    var t, cs := Step(s, a), s.races[r].contenders;
    StepDecides(s, r, a);
    StepMovesJobs(s, a);
    if a.RunJob? && s.jobs != [] && s.jobs[0].Fire? {
      assert JobSound(s, s.jobs[0].p);
    }
    if t.races[r].phase.Registered? {
      forall k | |JobsLeft(s, a)| <= k < |t.jobs| ensures !WatcherOfOne(t.jobs[k], cs) {
        assert NewJob(s, t, a, t.jobs[k]);
        assert t.jobs[k].Fire? ==> Joined(s, r, Thenable(t.jobs[k].p));
      }
      FirstDueStays(JobsLeft(s, a), t.jobs, cs);
    }
  }

  lemma TakenStaysTaken(s: State, r: RaceId, a: Action, c: Contender)
    requires Inv(s) && TakenBy(s, r, c)
    ensures TakenBy(Step(s, a), r, c)
  {
    StepExtends(s, a);
  }

  /** No undisturbed action, of whichever race, changes who takes the race. */
  lemma StepKeepsDestiny(s: State, r: RaceId, a: Action, taker: Taker)
    requires Inv(s) && Destined(s, r, taker) && Undisturbed(s, r, s.races[r].contenders, a)
    ensures Destined(Step(s, a), r, taker) && Step(s, a).races[r].contenders == s.races[r].contenders
  {
    StepExtends(s, a);
    match s.races[r].phase
    case Yielded(_, _) =>
      if a.RunJob? && s.jobs[0] == Resume(r) {
        ResumeKeepsDestiny(s, r, taker);
      } else {
        YieldKeepsDestiny(s, r, a, taker);
      }
    case Registered => RegisteredKeepsDestiny(s, r, a, taker);
    case _ => TakenStaysTaken(s, r, a, taker.c);
  }

  lemma {:induction false} RunKeepsDestiny(s: State, r: RaceId, more: seq<Action>, taker: Taker)
    requires Inv(s) && Destined(s, r, taker) && UndisturbedRun(s, r, s.races[r].contenders, more)
    ensures Inv(After(s, more)) && Destined(After(s, more), r, taker)
    decreases |more|
  {
    if more != [] {
      StepKeepsInv(s, more[0]);
      StepKeepsDestiny(s, r, more[0], taker);
      RunKeepsDestiny(Step(s, more[0]), r, more[1..], taker);
    }
  }

  /** A race over two or more contenders starts out destined to its taker. */
  lemma StartDestined(s: State, r: RaceId, cs: seq<Contender>)
    requires Inv(s) && r !in s.races && |cs| > 1
    ensures Destined(Started(s, r, cs), r, TakerOf(s, cs)) && Started(s, r, cs).races[r].contenders == cs
  {
    StartInTransit(s, r, cs);
    var s' := s.(races := s.races[r := Entrant(cs, Never)]);
    var k := ScanStops(s', r, 0);
    StopIs(s, cs, k);
    if k == |cs| {
      JoinAllUnsettled(s', r, 0);
      JoinEffect(s', r, 0);
    } else if cs[k].Thenable? && cs[k].p !in s.records {
      assert cs[k] in cs;
      RegistrationSettles(s', r, k, cs[k].p);
    } else {
      assert cs[k].Thenable? ==> RecordSound(s, cs[k].p);
    }
  }

  lemma {:induction false} StopIs(s: State, cs: seq<Contender>, k: nat)
    requires k <= |cs| && (k < |cs| ==> !KnownUnsettled(s, cs[k]))
    requires forall m | 0 <= m < k :: KnownUnsettled(s, cs[m])
    ensures FirstStop(s, cs, 0) == k
  {
  }

  /** No contender is known settled, so the second pass finds no surprise. */
  lemma {:induction false} JoinAllUnsettled(s: State, r: RaceId, i: nat)
    requires r in s.races && forall j | 0 <= j < |s.races[r].contenders| :: KnownUnsettled(s, s.races[r].contenders[j])
    ensures r in Join(s, r, i).races && Join(s, r, i).races[r].phase == Registered
    decreases |s.races[r].contenders| - i
  {
    if i < |s.races[r].contenders| {
      var p := s.races[r].contenders[i].p;
      JoinAllUnsettled(s.(records := s.records[p := s.records[p].(races := s.records[p].races + {r})]), r, i + 1);
    }
  }

  /**
   * Whatever the list, and whatever happens after the start, nobody but its taker gets the race: as
   * long as no contender settles or is cancelled, and no other race, running or started meanwhile,
   * registers one that was new and has settled.
   */
  lemma RaceGoesToTaker(acts: seq<Action>, r: RaceId, cs: seq<Contender>, more: seq<Action>)
    requires r !in Exec(Initial, acts).races && |cs| > 1
    requires UndisturbedRun(Exec(Initial, acts + [Start(r, cs)]), r, cs, more)
    ensures var t := Exec(Initial, acts + [Start(r, cs)] + more);
            OnItsWay(t, r) || Ends(t, r, TakerOf(Exec(Initial, acts), cs))
  {
    var s := Exec(Initial, acts);
    RunKeepsInv(acts);
    RunKeepsInv(acts + [Start(r, cs)]);
    ExecSnoc(acts, Start(r, cs));
    StartDestined(s, r, cs);
    RunKeepsDestiny(Started(s, r, cs), r, more, TakerOf(s, cs));
    ExecGoesOn(acts + [Start(r, cs)], more);
    DestinedEnds(After(Started(s, r, cs), more), r, TakerOf(s, cs));
  }

  // ---------------------------------------------------------------- and it does get it

  /** The place of a job in the queue, or the queue's length. */
  function Place(jobs: seq<Job>, j: Job): (k: nat)
    ensures k <= |jobs| && (k < |jobs| ==> jobs[k] == j) && (j in jobs ==> k < |jobs|)
    ensures forall m | 0 <= m < k :: jobs[m] != j
  {
    if jobs == [] || jobs[0] == j then 0 else Place(jobs[1..], j) + 1
  }

  /** How far the pass still has to go. */
  function Ahead(s: State, r: RaceId): nat
    requires r in s.races
  {
    if s.races[r].phase.Yielded? && s.races[r].phase.at < |s.races[r].contenders|
    then |s.races[r].contenders| - s.races[r].phase.at else 0
  }

  /** How far its next job is from the front of the queue. */
  function Queued(s: State, r: RaceId): nat
    requires r in s.races
  {
    match s.races[r].phase
    case Yielded(_, _) => Place(s.jobs, Resume(r))
    case Registered => FirstDue(s.jobs, s.races[r].contenders) + 1
    case _ => 0
  }

  /** One job takes a yielding race on to a later contender, out of its pass, or its resumption forward. */
  lemma JobTakesYieldOn(s: State, r: RaceId)
    requires Inv(s) && OnItsWay(s, r) && s.races[r].phase.Yielded?
    ensures r in Ran(s).races
    ensures Ahead(Ran(s), r) < Ahead(s, r) || (Ahead(Ran(s), r) == Ahead(s, r) && Queued(Ran(s), r) < Queued(s, r))
  {
    assert RaceSound(s, r);
    if s.jobs[0] == Resume(r) {
      ResumeInTransit(s, r);
      var i, rest := s.races[r].phase.at, s.(jobs := s.jobs[1..]);
      if !s.records[s.races[r].contenders[i].p].settled {
        PassMovesOn(rest, r, i + 1);
      }
    } else {
      YieldStays(s, r, RunJob);
      StepMovesJobs(s, RunJob);
      var k := Place(s.jobs, Resume(r));
      assert Ran(s).jobs[k - 1] == s.jobs[1..][k - 1] == Resume(r);
    }
  }

  lemma PassMovesOn(s: State, r: RaceId, i: nat)
    requires InTransit(s, r) && 0 < i <= |s.races[r].contenders|
    requires forall j | 0 <= j < i :: KnownTo(s, s.races[r].contenders[j])
    ensures r in Scan(s, r, i).races && Ahead(Scan(s, r, i), r) <= |s.races[r].contenders| - i
  {
    var k := ScanStops(s, r, i);
    if k == |s.races[r].contenders| {
      JoinEffect(s, r, 0);
    }
  }

  /** Unless disturbed on the way, running the due jobs brings the race to its taker. */
  lemma {:induction false} DueJobsEndRace(s: State, r: RaceId, taker: Taker) returns (n: nat)
    requires Inv(s) && Destined(s, r, taker)
    ensures UndisturbedRun(s, r, s.races[r].contenders, RunJobs(n)) ==> Ends(After(s, RunJobs(n)), r, taker)
    decreases Ahead(s, r), Queued(s, r)
  {
    var cs := s.races[r].contenders;
    n := 0;
    if OnItsWay(s, r) {
      assert RunJobs(1)[0] == RunJob;
      n := 1;
      if Undisturbed(s, r, cs, RunJob) {
        StepKeepsInv(s, RunJob);
        StepKeepsDestiny(s, r, RunJob, taker);
        if s.races[r].phase.Yielded? {
          JobTakesYieldOn(s, r);
        } else {
          RegisteredKeepsDestiny(s, r, RunJob, taker);
        }
        n := DueJobsEndRace(Ran(s), r, taker);
        n := n + 1;
        assert RunJobs(n)[1..] == RunJobs(n - 1);
      }
    } else {
      DestinedEnds(s, r, taker);
    }
  }

  /** The due jobs alone bring a race to its taker, unless another race's registration disturbs it. */
  lemma RaceGetsToTaker(acts: seq<Action>, r: RaceId, cs: seq<Contender>) returns (n: nat)
    requires r !in Exec(Initial, acts).races && |cs| > 1
    ensures UndisturbedRun(Exec(Initial, acts + [Start(r, cs)]), r, cs, RunJobs(n)) ==>
              Ends(Exec(Initial, acts + [Start(r, cs)] + RunJobs(n)), r, TakerOf(Exec(Initial, acts), cs))
  {
    var s := Exec(Initial, acts);
    RunKeepsInv(acts);
    RunKeepsInv(acts + [Start(r, cs)]);
    ExecSnoc(acts, Start(r, cs));
    StartDestined(s, r, cs);
    n := DueJobsEndRace(Started(s, r, cs), r, TakerOf(s, cs));
    ExecGoesOn(acts + [Start(r, cs)], RunJobs(n));
  }

  // ---------------------------------------------------------------- when that is Promise.race's choice

  /**
   * The pass goes by contender j, registered and not flagged like all before it, and another settled
   * contender gets the race: the first one from where the pass stops, or, if it stops nowhere, the
   * one whose watcher is due first.
   */
  predicate Overlooked(s: State, cs: seq<Contender>, j: nat)
    requires j < |cs|
  {
    (forall m | 0 <= m <= j :: KnownUnsettled(s, cs[m])) &&
    var k := FirstStop(s, cs, j + 1);
    if k < |cs| then
      var m := FirstSettled(s.outcomes, cs, k);
      m < |cs| && cs[m] != cs[j]
    else
      FirstDue(s.jobs, cs) < |s.jobs| && s.jobs[FirstDue(s.jobs, cs)] != Fire(cs[j].p)
  }

  lemma TakerUnlessOverlooked(s: State, cs: seq<Contender>, j: nat)
    requires Inv(s) && j < |cs| && j == FirstSettled(s.outcomes, cs, 0)
    ensures TakerOf(s, cs).By? && (TakerOf(s, cs).c == cs[j] <==> !Overlooked(s, cs, j))
  {
    var k := FirstStop(s, cs, 0);
    assert cs[j] in cs && (cs[j].Thenable? ==> RecordSound(s, cs[j].p));
    if k <= j {
      SkipUnsettled(s.outcomes, cs, k, j);
    } else {
      var l := FirstStop(s, cs, j + 1);
      StopIs(s, cs, l);
      assert WatcherOfOne(Fire(cs[j].p), cs);
    }
  }

  /** Promise.race's rule holds exactly when the earliest settled contender is not overlooked. */
  lemma EarliestSettledWinsIff(acts: seq<Action>, r: RaceId, cs: seq<Contender>, j: nat, more: seq<Action>)
    returns (c: Contender)
    requires r !in Exec(Initial, acts).races && |cs| > 1
    requires j < |cs| && j == FirstSettled(Exec(Initial, acts).outcomes, cs, 0)
    requires UndisturbedRun(Exec(Initial, acts + [Start(r, cs)]), r, cs, more)
    ensures var t := Exec(Initial, acts + [Start(r, cs)] + more); OnItsWay(t, r) || TakenBy(t, r, c)
    ensures c == cs[j] <==> !Overlooked(Exec(Initial, acts), cs, j)
  {
    RunKeepsInv(acts);
    RaceGoesToTaker(acts, r, cs, more);
    TakerUnlessOverlooked(Exec(Initial, acts), cs, j);
    c := TakerOf(Exec(Initial, acts), cs).c;
  }

  /** With no contender settled the race stays undecided, waiting for all of them. */
  lemma NobodySettledWaits(acts: seq<Action>, r: RaceId, cs: seq<Contender>, more: seq<Action>)
    requires r !in Exec(Initial, acts).races && |cs| > 1
    requires FirstSettled(Exec(Initial, acts).outcomes, cs, 0) == |cs|
    requires UndisturbedRun(Exec(Initial, acts + [Start(r, cs)]), r, cs, more)
    ensures var t := Exec(Initial, acts + [Start(r, cs)] + more);
            r in t.races && (t.races[r].phase.Yielded? || t.races[r].phase.Registered?)
  {
    var s := Exec(Initial, acts);
    RunKeepsInv(acts);
    RaceGoesToTaker(acts, r, cs, more);
    NoneSettledNoneDue(s, cs);
    SkipUnsettled(s.outcomes, cs, 0, FirstStop(s, cs, 0));
  }

  // ---------------------------------------------------------------- a run that breaks the rule

  /** A stale flag: both contenders have settled, but the watcher of the earlier one has yet to fire. */
  lemma StaleFlagIsSkipped(s: State, r: RaceId, p: Promise, q: Promise)
    requires r !in s.races && p in s.outcomes && q in s.outcomes
    requires p in s.records && !s.records[p].settled && q in s.records && s.records[q].settled
    ensures var t := Step(s, Start(r, [Thenable(p), Thenable(q)]));
            r in t.races && t.races[r].phase == Following(q)
  {
    var s' := s.(races := s.races[r := Entrant([Thenable(p), Thenable(q)], Never)]);
    assert Scan(s', r, 0) == Scan(s', r, 1) == Goto(s', r, Following(q));
  }

  const Pair: seq<Contender> := [Thenable(0), Thenable(1)]

  /** Two contenders join a race, the second settles and its watcher fires, then the first settles. */
  const StaleRun: seq<Action> :=
    [] + [Start(0, Pair)] + [RunJob] + [RunJob]
    + [Settle(1, Fulfilled(11))] + [RunJob] + [Settle(0, Fulfilled(10))]

  /** The second pass leaves the settler with both contenders. */
  lemma PairJoins(s: State)
    requires s.races == map[0 := Entrant(Pair, Yielded(1, false))]
    requires s.records == map[0 := Record({}, false), 1 := Record({}, false)]
    ensures Join(s, 0, 0)
         == s.(records := map[0 := Record({0}, false), 1 := Record({0}, false)],
               races := map[0 := Entrant(Pair, Registered)])
  {
    var s1 := s.(records := map[0 := Record({0}, false), 1 := Record({}, false)]);
    var s2 := s.(records := map[0 := Record({0}, false), 1 := Record({0}, false)]);
    var joined: set<RaceId> := {} + {0};
    assert joined == {0};
    assert s.records[0 := Record({0}, false)] == s1.records;
    assert s1.records[1 := Record({0}, false)] == s2.records;
    assert Join(s2, 0, 2) == Goto(s2, 0, Registered);
    assert Join(s1, 0, 1) == Join(s2, 0, 2);
    assert Join(s, 0, 0) == Join(s1, 0, 1);
  }

  /** The first contender is new: the race yields. */
  lemma FirstYield()
    ensures Step(Initial, Start(0, Pair))
         == State(map[], map[0 := Record({}, false)], map[0 := Entrant(Pair, Yielded(0, false))], [Resume(0)], {})
  {
  }

  /** So is the second. */
  lemma SecondYield()
    ensures Step(Step(Initial, Start(0, Pair)), RunJob)
         == State(map[], map[0 := Record({}, false), 1 := Record({}, false)],
                  map[0 := Entrant(Pair, Yielded(1, false))], [Resume(0)], {})
  {
    FirstYield();
  }

  /** Both contenders registered, the race waiting for either. */
  lemma TwoJoined()
    ensures Exec(Initial, [] + [Start(0, Pair)] + [RunJob] + [RunJob])
         == State(map[], map[0 := Record({0}, false), 1 := Record({0}, false)],
                  map[0 := Entrant(Pair, Registered)], [], {})
  {
    ExecSnoc([], Start(0, Pair));
    ExecSnoc([] + [Start(0, Pair)], RunJob);
    ExecSnoc([] + [Start(0, Pair)] + [RunJob], RunJob);
    SecondYield();
    var s := Exec(Initial, [] + [Start(0, Pair)] + [RunJob]);
    PairJoins(s.(jobs := []));
    assert Scan(s.(jobs := []), 0, 2) == Join(s.(jobs := []), 0, 0);
  }

  /** So Promise.race's rule fails here: both have settled, and the new race goes to the later one. */
  lemma LaterContenderCanWin()
    ensures var s := Exec(Initial, StaleRun);
            var t := Step(s, Start(1, Pair));
            0 in s.outcomes && 1 in s.outcomes && 1 in t.races && t.races[1].phase == Following(1)
  {
    var acts := [] + [Start(0, Pair)] + [RunJob] + [RunJob];
    TwoJoined();
    ExecSnoc(acts, Settle(1, Fulfilled(11)));
    ExecSnoc(acts + [Settle(1, Fulfilled(11))], RunJob);
    ExecSnoc(acts + [Settle(1, Fulfilled(11))] + [RunJob], Settle(0, Fulfilled(10)));
    StaleFlagIsSkipped(Exec(Initial, StaleRun), 1, 0, 1);
  }

  // ---------------------------------------------------------------- why the yields must be quiet

  /** A race has registered 0 and 1, and 1 has settled and been flagged. */
  const FlaggedRun: seq<Action> :=
    [] + [Start(0, Pair)] + [RunJob] + [RunJob] + [Settle(1, Fulfilled(11))] + [RunJob]

  /** Contenders 2 and 3 are new; of the registered ones only 1 is settled, and no job is due. */
  predicate OneFlagged(s: State) {
    && s.jobs == [] && s.races.Keys == {0} && s.records.Keys == {0, 1} && s.outcomes.Keys == {1}
    && !s.records[0].settled && s.records[1].settled
  }

  lemma FlaggedRunFlagsOne()
    ensures OneFlagged(Exec(Initial, FlaggedRun))
  {
    var acts := [] + [Start(0, Pair)] + [RunJob] + [RunJob];
    TwoJoined();
    ExecSnoc(acts, Settle(1, Fulfilled(11)));
    ExecSnoc(acts + [Settle(1, Fulfilled(11))], RunJob);
  }

  /** A race over a new first contender yields at once. */
  lemma YieldsFirst(s: State, r: RaceId, cs: seq<Contender>)
    requires r !in s.races && |cs| > 1 && cs[0].Thenable? && cs[0].p !in s.records
    ensures Step(s, Start(r, cs)) == Registration(s.(races := s.races[r := Entrant(cs, Never)]), r, 0, cs[0].p)
  {
  }

  /** A race that resumes after a pending contender yields again over a new one. */
  lemma YieldsAgain(s: State, r: RaceId, i: nat)
    requires s.jobs != [] && s.jobs[0] == Resume(r) && r in s.races
    requires s.races[r].phase.Yielded? && s.races[r].phase.at == i && i + 1 < |s.races[r].contenders|
    requires var cs := s.races[r].contenders;
             KnownUnsettled(s, cs[i]) && cs[i + 1].Thenable? && cs[i + 1].p !in s.records
    ensures Ran(s) == Registration(s.(jobs := s.jobs[1..]), r, i + 1, s.races[r].contenders[i + 1].p)
  {
  }

  const Late: seq<Contender> := [Thenable(2), Thenable(3), Thenable(0), Thenable(1)]

  lemma LateSettlementOvertakes(s: State, o: Outcome)
    requires OneFlagged(s) && !o.Cancelled?
    ensures var t := Ran(Ran(Ran(Settled(Step(s, Start(1, Late)), 0, o))));
            1 in t.races && t.races[1].phase == Following(0)
  {
    YieldsFirst(s, 1, Late);
    var s1 := Step(s, Start(1, Late));
    assert s1.jobs == [Resume(1)];
    var s2 := Settled(s1, 0, o);
    assert s2.jobs == [Resume(1), Fire(0)];
    YieldsAgain(s2, 1, 0);
    var s3 := Ran(s2);
    assert s3.jobs == [Fire(0), Resume(1)];
    var s4 := Ran(s3);
    assert s4.jobs == [Resume(1)] && s4.records[0].settled && !s4.records[3].settled;
    assert Scan(s4.(jobs := []), 1, 2) == Goto(s4.(jobs := []), 1, Following(0));
    assert s4.jobs[1..] == [];
  }

  /** A contender that settles while the race yields overtakes the one settled from the start. */
  lemma SettlementWhileYielding()
    ensures var s := Exec(Initial, FlaggedRun);
            var t := Exec(Initial, FlaggedRun + [Start(1, Late)] + [Settle(0, Fulfilled(10))]
                                   + [RunJob] + [RunJob] + [RunJob]);
            && FirstSettled(s.outcomes, Late, 0) == 3 && !Overlooked(s, Late, 3)
            && 1 in t.races && t.races[1].phase == Following(0)
  {
    var s := Exec(Initial, FlaggedRun);
    FlaggedRunFlagsOne();
    LateSettlementOvertakes(s, Fulfilled(10));
    var acts := FlaggedRun + [Start(1, Late)] + [Settle(0, Fulfilled(10))];
    ExecSnoc(FlaggedRun, Start(1, Late));
    ExecSnoc(FlaggedRun + [Start(1, Late)], Settle(0, Fulfilled(10)));
    ExecSnoc(acts, RunJob);
    ExecSnoc(acts + [RunJob], RunJob);
    ExecSnoc(acts + [RunJob] + [RunJob], RunJob);
    assert !KnownUnsettled(s, Late[0]);
  }

  const Other: seq<Contender> := [Thenable(4), Thenable(3)]
  const Shared: seq<Contender> := [Thenable(2), Thenable(3), Thenable(1)]

  /** Race 5 has yielded over contender 4. */
  predicate OtherYields(s: State) {
    && s.jobs == [Resume(5)] && 5 in s.races && s.races[5] == Entrant(Other, Yielded(0, false)) && 6 !in s.races
    && s.records.Keys == {0, 1, 4} && s.outcomes.Keys == {1, 3}
    && !s.records[0].settled && s.records[1].settled && !s.records[4].settled
  }

  /** Race 6 yields over contender 2, and meanwhile race 5 registers its contender 3. */
  lemma SharedRegistrationOvertakes(s: State)
    requires OtherYields(s)
    ensures var t := Ran(Ran(Step(s, Start(6, Shared)))); 6 in t.races && t.races[6].phase == Following(1)
  {
    YieldsFirst(s, 6, Shared);
    var v := Step(s, Start(6, Shared));
    assert v.jobs == [Resume(5), Resume(6)];
    YieldsAgain(v, 5, 0);
    var w := Ran(v);
    assert w.jobs[0] == Resume(6) && !w.records[2].settled && !w.records[3].settled;
    var rest := w.(jobs := w.jobs[1..]);
    assert Scan(rest, 6, 1) == Scan(rest, 6, 2) == Goto(rest, 6, Following(1));
  }

  /** So does a registration of a settled contender by another race that is between its yields. */
  lemma RegistrationWhileYielding()
    ensures var s := Exec(Initial, FlaggedRun + [Settle(3, Fulfilled(13))] + [Start(5, Other)]);
            var t := Exec(Initial, FlaggedRun + [Settle(3, Fulfilled(13))] + [Start(5, Other)]
                                   + [Start(6, Shared)] + [RunJob] + [RunJob]);
            && FirstSettled(s.outcomes, Shared, 0) == 1 && !Overlooked(s, Shared, 1)
            && 6 in t.races && t.races[6].phase == Following(1)
  {
    var acts := FlaggedRun + [Settle(3, Fulfilled(13))] + [Start(5, Other)];
    OtherYieldsRun();
    SharedRegistrationOvertakes(Exec(Initial, acts));
    ThreeMore(acts, Start(6, Shared), RunJob, RunJob);
    assert !KnownUnsettled(Exec(Initial, acts), Shared[0]);
  }

  lemma OtherYieldsRun()
    ensures OtherYields(Exec(Initial, FlaggedRun + [Settle(3, Fulfilled(13))] + [Start(5, Other)]))
  {
    FlaggedRunFlagsOne();
    var acts := FlaggedRun + [Settle(3, Fulfilled(13))];
    ExecSnoc(FlaggedRun, Settle(3, Fulfilled(13)));
    ExecSnoc(acts, Start(5, Other));
    YieldsFirst(Exec(Initial, acts), 5, Other);
  }

  const Newcomer: seq<Contender> := [Thenable(3), Thenable(4)]

  /** Race 6 yields over contender 2; race 5, started meanwhile, registers its contender 3. */
  lemma LateStartOvertakes(s: State)
    requires s.jobs == [] && s.races.Keys == {0} && s.records.Keys == {0, 1} && s.outcomes.Keys == {1, 3}
    requires !s.records[0].settled && s.records[1].settled
    ensures var t := Ran(Step(Step(s, Start(6, Shared)), Start(5, Newcomer)));
            6 in t.races && t.races[6].phase == Following(1)
  {
    YieldsFirst(s, 6, Shared);
    var u := Step(s, Start(6, Shared));
    YieldsFirst(u, 5, Newcomer);
    var v := Step(u, Start(5, Newcomer));
    assert v.jobs[0] == Resume(6) && !v.records[2].settled && !v.records[3].settled;
    var rest := v.(jobs := v.jobs[1..]);
    assert Scan(rest, 6, 1) == Scan(rest, 6, 2) == Goto(rest, 6, Following(1));
  }

  /** And so does one by a race that is started during the yield, with no race in flight at the start. */
  lemma StartWhileYielding()
    ensures var s := Exec(Initial, FlaggedRun + [Settle(3, Fulfilled(13))]);
            var t := Exec(Initial, FlaggedRun + [Settle(3, Fulfilled(13))]
                                   + [Start(6, Shared)] + [Start(5, Newcomer)] + [RunJob]);
            && s.jobs == [] && FirstSettled(s.outcomes, Shared, 0) == 1 && !Overlooked(s, Shared, 1)
            && 6 in t.races && t.races[6].phase == Following(1)
  {
    FlaggedRunFlagsOne();
    var acts := FlaggedRun + [Settle(3, Fulfilled(13))];
    ExecSnoc(FlaggedRun, Settle(3, Fulfilled(13)));
    LateStartOvertakes(Exec(Initial, acts));
    ThreeMore(acts, Start(6, Shared), Start(5, Newcomer), RunJob);
    assert !KnownUnsettled(Exec(Initial, acts), Shared[0]);
  }

  lemma ThreeMore(acts: seq<Action>, a: Action, b: Action, c: Action)
    ensures Exec(Initial, acts + [a] + [b] + [c]) == Step(Step(Step(Exec(Initial, acts), a), b), c)
  {
    ExecSnoc(acts, a);
    ExecSnoc(acts + [a], b);
    ExecSnoc(acts + [a] + [b], c);
  }
}
