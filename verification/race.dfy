/**
 * The non-leaking promise race over its shared registry.
 *
 * Code between two awaits is one step.  The microtask queue is explicit for the two kinds of jobs
 * whose order matters: the registry's watcher of a settled contender, and a race resuming after
 * `await null`.  Everything else a promise does later may happen at any time.
 */
module Race {
  type Promise = nat
  type RaceId = nat

  datatype Outcome = Fulfilled(value: int) | Rejected(reason: int) | Cancelled

  datatype Contender = Primitive(value: int) | Thenable(p: Promise)

  /** A registry entry: the races that wait for the contender, and whether it is known settled. */
  datatype Record = Record(races: set<RaceId>, settled: bool)

  datatype Phase =
    | Never                            // no contenders: stays pending
    | Yielded(at: nat, was: bool)      // registered contender `at`, which was settled or not, and awaits null
    | Registered                       // awaits the result, its settler with every contender
    | Locked(outcome: Outcome)         // the result is decided, the cleanup still to come
    | Following(p: Promise)            // adopts one contender, no settler left anywhere
    | Finished(outcome: Outcome)

  datatype Entrant = Entrant(contenders: seq<Contender>, phase: Phase)

  datatype Job = Fire(p: Promise) | Resume(r: RaceId)

  datatype State = State(
    outcomes: map<Promise, Outcome>,
    records: map<Promise, Record>,
    races: map<RaceId, Entrant>,
    jobs: seq<Job>,
    cancelled: set<Promise>)

  datatype Action =
    | Start(r: RaceId, contenders: seq<Contender>)
    | Settle(p: Promise, outcome: Outcome)
    | RunJob                         // the oldest microtask
    | CancelAll(p: Promise)          // cancel(p)
    | CleanUp(r: RaceId)             // the finally block of a decided race
    | Adopt(r: RaceId)               // the followed contender's outcome arrives

  const Initial := State(map[], map[], map[], [], {})

  function Goto(s: State, r: RaceId, f: Phase): State
    requires r in s.races
  {
    s.(races := s.races[r := s.races[r].(phase := f)])
  }

  // ---------------------------------------------------------------- entering a race

  /** addRaceContender and the yield after it: an already settled contender's watcher is due first. */
  function Registration(s: State, r: RaceId, i: nat, p: Promise): State
    requires r in s.races
  {
    var due := if p in s.outcomes then [Fire(p)] else [];
    Goto(s, r, Yielded(i, p in s.outcomes))
      .(records := s.records[p := Record({}, false)], jobs := s.jobs + due + [Resume(r)])
  }

  /** Second pass: leave the settler with every contender, unless one got settled meanwhile. */
  function Join(s: State, r: RaceId, i: nat): State
    requires r in s.races
    decreases |s.races[r].contenders| - i
  {
    var cs := s.races[r].contenders;
    if i >= |cs| then
      Goto(s, r, Registered)
    else if cs[i].Thenable? && cs[i].p in s.records then
      var rec := s.records[cs[i].p];
      if rec.settled && cs[i].p in s.outcomes then
        Goto(s, r, Locked(s.outcomes[cs[i].p]))
      else
        Join(s.(records := s.records[cs[i].p := rec.(races := rec.races + {r})]), r, i + 1)
    else
      Join(s, r, i + 1)
  }

  /** First pass, from contender i to the next await. */
  function Scan(s: State, r: RaceId, i: nat): State
    requires r in s.races
    decreases |s.races[r].contenders| - i
  {
    var cs := s.races[r].contenders;
    if i >= |cs| then
      Join(s, r, 0)
    else if cs[i].Primitive? then
      Goto(s, r, Finished(Fulfilled(cs[i].value)))
    else if cs[i].p !in s.records then
      Registration(s, r, i, cs[i].p)
    else if s.records[cs[i].p].settled then
      Goto(s, r, Following(cs[i].p))
    else
      Scan(s, r, i + 1)
  }

  function Started(s: State, r: RaceId, cs: seq<Contender>): State
    requires r !in s.races
  {
    var s' := s.(races := s.races[r := Entrant(cs, Never)]);
    if |cs| == 0 then
      s'
    else if |cs| == 1 then
      Goto(s', r, if cs[0].Primitive? then Finished(Fulfilled(cs[0].value)) else Following(cs[0].p))
    else
      Scan(s', r, 0)
  }

  function Resumed(s: State, r: RaceId): State {
    if r in s.races && s.races[r].phase.Yielded? && s.races[r].phase.at < |s.races[r].contenders| then
      var c := s.races[r].contenders[s.races[r].phase.at];
      if c.Thenable? && c.p in s.records && s.records[c.p].settled then
        Goto(s, r, Following(c.p))
      else
        Scan(s, r, s.races[r].phase.at + 1)
    else
      s
  }

  // ---------------------------------------------------------------- deciding a race

  /** resolve or reject every race in the set; only the first call to a settler counts. */
  function Decide(races: map<RaceId, Entrant>, among: set<RaceId>, o: Outcome): map<RaceId, Entrant> {
    map r | r in races ::
      if r in among && races[r].phase.Registered? then races[r].(phase := Locked(o)) else races[r]
  }

  function Fired(s: State, p: Promise): State {
    if p in s.records && p in s.outcomes then
      s.(races := Decide(s.races, s.records[p].races, s.outcomes[p]),
         records := s.records[p := Record({}, true)])
    else
      s
  }

  function CancelledAll(s: State, p: Promise): State {
    if p in s.records && !s.records[p].settled then
      s.(races := Decide(s.races, s.records[p].races, Cancelled),
         records := s.records[p := Record({}, false)],
         cancelled := s.cancelled + {p})
    else
      s
  }

  function Dropped(records: map<Promise, Record>, cs: seq<Contender>, r: RaceId): map<Promise, Record> {
    map p | p in records :: if Thenable(p) in cs then records[p].(races := records[p].races - {r}) else records[p]
  }

  /** Drop the settler from every contender that still refers to it. */
  function CleanedUp(s: State, r: RaceId): State {
    if r in s.races && s.races[r].phase.Locked? then
      Goto(s, r, Finished(s.races[r].phase.outcome)).(records := Dropped(s.records, s.races[r].contenders, r))
    else
      s
  }

  function Ran(s: State): State {
    if s.jobs == [] then
      s
    else
      var rest := s.(jobs := s.jobs[1..]);
      match s.jobs[0]
      case Fire(p) => Fired(rest, p)
      case Resume(r) => Resumed(rest, r)
  }

  function Settled(s: State, p: Promise, o: Outcome): State {
    if p in s.outcomes || o.Cancelled? then s
    else s.(outcomes := s.outcomes[p := o], jobs := if p in s.records then s.jobs + [Fire(p)] else s.jobs)
  }

  function Step(s: State, a: Action): State {
    match a
    case Start(r, cs) => if r in s.races then s else Started(s, r, cs)
    case Settle(p, o) => Settled(s, p, o)
    case RunJob => Ran(s)
    case CancelAll(p) => CancelledAll(s, p)
    case CleanUp(r) => CleanedUp(s, r)
    case Adopt(r) =>
      if r in s.races && s.races[r].phase.Following? && s.races[r].phase.p in s.outcomes
      then Goto(s, r, Finished(s.outcomes[s.races[r].phase.p])) else s
  }

  function Exec(s: State, acts: seq<Action>): State {
    if acts == [] then s else Step(Exec(s, acts[..|acts| - 1]), acts[|acts| - 1])
  }

  // ---------------------------------------------------------------- the registry invariant

  /** A settled record is empty for good; an outcome the record does not know yet is on its way. */
  predicate RecordSound(s: State, p: Promise) {
    && (p in s.outcomes ==> !s.outcomes[p].Cancelled?)
    && (p in s.records && s.records[p].settled ==> s.records[p].races == {} && p in s.outcomes)
    && (p in s.records && p in s.outcomes && !s.records[p].settled ==> Fire(p) in s.jobs)
  }

  /** A settler in a record belongs to an unfinished race that lists the contender. */
  predicate Linked(s: State, p: Promise, r: RaceId) {
    p in s.records && r in s.records[p].races ==>
      && r in s.races && Thenable(p) in s.races[r].contenders
      && (s.races[r].phase.Registered? || s.races[r].phase.Locked?)
  }

  /** An undecided registered race has its settler with every contender, none of them known settled. */
  predicate Joined(s: State, r: RaceId, c: Contender) {
    r in s.races && s.races[r].phase.Registered? && c in s.races[r].contenders ==>
      c.Thenable? && c.p in s.records && !s.records[c.p].settled && r in s.records[c.p].races
  }

  /** The outcome is one of the contenders' own, or some contender was cancelled. */
  ghost predicate OwnOutcome(s: State, cs: seq<Contender>, o: Outcome) {
    || (exists v :: Primitive(v) in cs && o == Fulfilled(v))
    || (exists p :: Thenable(p) in cs && p in s.outcomes && s.outcomes[p] == o)
    || (o == Cancelled && exists p :: Thenable(p) in cs && p in s.cancelled)
  }

  predicate KnownTo(s: State, c: Contender) {
    c.Thenable? && c.p in s.records
  }

  /** A race past its own bookkeeping has an outcome of its own; one that yielded knows its contenders so far. */
  ghost predicate PhaseSound(s: State, r: RaceId) {
    r in s.races ==>
      var cs := s.races[r].contenders;
      match s.races[r].phase
      case Never => cs == []
      case Yielded(i, was) => i < |cs| && forall j | 0 <= j <= i :: KnownTo(s, cs[j])
      case Registered => true
      case Locked(o) => OwnOutcome(s, cs, o)
      case Following(p) => Thenable(p) in cs
      case Finished(o) => OwnOutcome(s, cs, o)
  }

  /** The watcher of a contender that was settled when registered fires before the race resumes. */
  ghost predicate WatcherFirst(s: State, r: RaceId) {
    r in s.races && s.races[r].phase.Yielded? && s.races[r].phase.was
    && s.races[r].phase.at < |s.races[r].contenders| ==>
      var c := s.races[r].contenders[s.races[r].phase.at];
      c.Thenable? && c.p in s.records && (s.records[c.p].settled || BeforeEach(s.jobs, Fire(c.p), Resume(r)))
  }

  ghost predicate BeforeEach(jobs: seq<Job>, a: Job, b: Job) {
    forall k | 0 <= k < |jobs| && jobs[k] == b :: a in jobs[..k]
  }

  /** Only registered contenders with an outcome have their watcher due. */
  predicate JobSound(s: State, p: Promise) {
    Fire(p) in s.jobs ==> p in s.records && p in s.outcomes
  }

  /** A contender the first pass walks past: registered, and not known settled. */
  predicate KnownUnsettled(s: State, c: Contender) {
    KnownTo(s, c) && !s.records[c.p].settled
  }

  /** The first pass stops at the first contender that is not known unsettled. */
  lemma {:induction false} ScanStops(s: State, r: RaceId, i: nat) returns (j: nat)
    requires r in s.races && i <= |s.races[r].contenders|
    ensures var cs := s.races[r].contenders;
            && i <= j <= |cs| && (forall m | i <= m < j :: KnownUnsettled(s, cs[m]))
            && (j < |cs| ==> !KnownUnsettled(s, cs[j]))
            && Scan(s, r, i) == Scan(s, r, j)
    decreases |s.races[r].contenders| - i
  {
    if i < |s.races[r].contenders| && KnownUnsettled(s, s.races[r].contenders[i]) {
      j := ScanStops(s, r, i + 1);
    } else {
      j := i;
    }
  }

  /** Contender k is the first of the list, from contender i on, that is known settled. */
  predicate FirstFlagged(s: State, cs: seq<Contender>, i: nat, k: nat) {
    && i <= k < |cs| && KnownTo(s, cs[k]) && s.records[cs[k].p].settled && cs[k].p in s.outcomes
    && forall m | i <= m < k :: KnownUnsettled(s, cs[m])
  }

  /** What the second pass does to the state. */
  ghost predicate JoinedFrom(s: State, t: State, r: RaceId, i: nat)
    requires r in s.races
  {
    var cs := s.races[r].contenders;
    && t.outcomes == s.outcomes && t.jobs == s.jobs && t.cancelled == s.cancelled
    && r in t.races && t.races == s.races[r := Entrant(cs, t.races[r].phase)]
    && t.records.Keys == s.records.Keys
    && (forall p | p in s.records :: JoinedRecord(s.records[p], t.records[p], r, Thenable(p) in cs))
    && match t.races[r].phase
       case Registered => forall j | i <= j < |cs| :: KnownUnsettled(t, cs[j]) && r in t.records[cs[j].p].races
       case Locked(o) => exists k: nat :: FirstFlagged(s, cs, i, k) && s.outcomes[cs[k].p] == o
       case _ => false
  }

  predicate JoinedRecord(before: Record, after: Record, r: RaceId, contends: bool) {
    before == after || (contends && !before.settled && after == Record(before.races + {r}, false))
  }

  lemma {:induction false} JoinEffect(s: State, r: RaceId, i: nat)
    requires r in s.races && i <= |s.races[r].contenders|
    requires forall j | i <= j < |s.races[r].contenders| :: KnownTo(s, s.races[r].contenders[j])
    requires forall p :: RecordSound(s, p)
    ensures JoinedFrom(s, Join(s, r, i), r, i)
    decreases |s.races[r].contenders| - i
  {
    var cs := s.races[r].contenders;
    if i < |cs| {
      var rec := s.records[cs[i].p];
      assert RecordSound(s, cs[i].p);
      assert cs[i] in cs;
      if rec.settled {
        assert FirstFlagged(s, cs, i, i) && s.outcomes[cs[i].p] == Join(s, r, i).races[r].phase.outcome;
      } else {
        var s' := s.(records := s.records[cs[i].p := rec.(races := rec.races + {r})]);
        forall p ensures RecordSound(s', p) { assert RecordSound(s, p); }
        JoinEffect(s', r, i + 1);
        var t := Join(s, r, i);
        forall p | p in s.records ensures JoinedRecord(s.records[p], t.records[p], r, Thenable(p) in cs) {
          assert JoinedRecord(s'.records[p], t.records[p], r, Thenable(p) in cs);
        }
        assert JoinedRecord(s'.records[cs[i].p], t.records[cs[i].p], r, true);
        if t.races[r].phase.Locked? {
          var k: nat :| FirstFlagged(s', cs, i + 1, k) && s'.outcomes[cs[k].p] == t.races[r].phase.outcome;
          assert FirstFlagged(s, cs, i, k);
        }
      }
    }
  }

  /** One resumption is due for a race that yielded, none for any other. */
  ghost predicate ResumeOnce(s: State, r: RaceId) {
    && (Resume(r) in s.jobs ==> r in s.races && s.races[r].phase.Yielded?)
    && forall k, l | 0 <= k < l < |s.jobs| :: !(s.jobs[k] == Resume(r) == s.jobs[l])
  }

  ghost predicate RegistrySound(s: State) {
    && (forall p :: RecordSound(s, p) && JobSound(s, p))
    && (forall p, r :: Linked(s, p, r))
    && (forall r, c :: Joined(s, r, c))
  }

  ghost predicate RaceSound(s: State, r: RaceId) {
    PhaseSound(s, r) && WatcherFirst(s, r) && ResumeOnce(s, r)
  }

  ghost predicate Inv(s: State) {
    RegistrySound(s) && forall r :: RaceSound(s, r)
  }

  /** Race r is between two of its own steps, with nothing of it left in the registry or the queue. */
  ghost predicate InTransit(s: State, r: RaceId) {
    && RegistrySound(s)
    && (forall q | q != r :: RaceSound(s, q))
    && r in s.races && !s.races[r].phase.Registered? && !s.races[r].phase.Locked?
    && Resume(r) !in s.jobs
  }

  lemma RegistrationKeepsInv(s: State, r: RaceId, i: nat, p: Promise)
    requires InTransit(s, r) && i < |s.races[r].contenders| && s.races[r].contenders[i] == Thenable(p)
    requires p !in s.records && forall j | 0 <= j < i :: KnownTo(s, s.races[r].contenders[j])
    ensures Inv(Registration(s, r, i, p))
  {
    var t := Registration(s, r, i, p);
    forall q ensures RecordSound(t, q) && JobSound(t, q) {
      assert RecordSound(s, q) && JobSound(s, q);
    }
    forall q, x ensures Linked(t, q, x) { assert Linked(s, q, x); }
    forall x, c ensures Joined(t, x, c) { assert Joined(s, x, c); }
    forall x ensures RaceSound(t, x) {
      if x == r {
        var n := |t.jobs| - 1;
        assert forall k | 0 <= k < n :: t.jobs[k] != Resume(r);
        if p in s.outcomes { assert t.jobs[..n][n - 1] == Fire(p); }
      } else {
        assert RaceSound(s, x);
        AppendKeepsRace(s, t, x);
      }
    }
  }

  /** A race whose own entry did not change stays sound when jobs of others are appended. */
  lemma AppendKeepsRace(s: State, t: State, r: RaceId)
    requires RaceSound(s, r)
    requires s.outcomes.Keys <= t.outcomes.Keys && forall p | p in s.outcomes :: t.outcomes[p] == s.outcomes[p]
    requires s.records.Keys <= t.records.Keys
    requires forall p | p in s.records && s.records[p].settled :: t.records[p].settled
    requires s.cancelled <= t.cancelled
    requires |s.jobs| <= |t.jobs| && t.jobs[..|s.jobs|] == s.jobs
    requires forall k | |s.jobs| <= k < |t.jobs| :: t.jobs[k] != Resume(r)
    requires r in s.races <==> r in t.races
    requires r in s.races ==> t.races[r] == s.races[r]
    ensures RaceSound(t, r)
  {
    forall k | 0 <= k < |t.jobs| && t.jobs[k] == Resume(r)
      ensures k < |s.jobs| && s.jobs[k] == Resume(r) && t.jobs[..k] == s.jobs[..k]
    {
    }
  }

  lemma JoinKeepsInv(s: State, r: RaceId)
    requires InTransit(s, r) && forall j | 0 <= j < |s.races[r].contenders| :: KnownTo(s, s.races[r].contenders[j])
    ensures Inv(Join(s, r, 0))
  {
    var t := Join(s, r, 0);
    JoinEffect(s, r, 0);
    forall q ensures RecordSound(t, q) && JobSound(t, q) {
      assert RecordSound(s, q) && JobSound(s, q);
    }
    forall q, x ensures Linked(t, q, x) {
      assert Linked(s, q, x);
      if q in s.records { assert JoinedRecord(s.records[q], t.records[q], r, Thenable(q) in s.races[r].contenders); }
    }
    forall x, c ensures Joined(t, x, c) {
      assert Joined(s, x, c);
      if c.Thenable? && c.p in s.records {
        assert JoinedRecord(s.records[c.p], t.records[c.p], r, Thenable(c.p) in s.races[r].contenders);
      }
    }
    forall x ensures RaceSound(t, x) {
      if x != r {
        assert RaceSound(s, x);
        AppendKeepsRace(s, t, x);
      }
    }
  }

  lemma EndKeepsInv(s: State, r: RaceId, f: Phase)
    requires InTransit(s, r) && (f.Following? || f.Finished?)
    requires PhaseSound(Goto(s, r, f), r)
    ensures Inv(Goto(s, r, f))
  {
    var t := Goto(s, r, f);
    forall q ensures RecordSound(t, q) && JobSound(t, q) { assert RecordSound(s, q) && JobSound(s, q); }
    forall q, x ensures Linked(t, q, x) { assert Linked(s, q, x); }
    forall x, c ensures Joined(t, x, c) { assert Joined(s, x, c); }
    forall x ensures RaceSound(t, x) {
      if x != r {
        assert RaceSound(s, x);
        AppendKeepsRace(s, t, x);
      }
    }
  }

  lemma ScanKeepsInv(s: State, r: RaceId, i: nat)
    requires InTransit(s, r) && i <= |s.races[r].contenders|
    requires forall j | 0 <= j < i :: KnownTo(s, s.races[r].contenders[j])
    ensures Inv(Scan(s, r, i))
  {
    var cs := s.races[r].contenders;
    var j := ScanStops(s, r, i);
    if j == |cs| {
      JoinKeepsInv(s, r);
    } else {
      assert cs[j] in cs;
      if cs[j].Primitive? {
        EndKeepsInv(s, r, Finished(Fulfilled(cs[j].value)));
      } else if cs[j].p in s.records {
        EndKeepsInv(s, r, Following(cs[j].p));
      } else {
        RegistrationKeepsInv(s, r, j, cs[j].p);
      }
    }
  }

  lemma StartInTransit(s: State, r: RaceId, cs: seq<Contender>)
    requires Inv(s) && r !in s.races
    ensures InTransit(s.(races := s.races[r := Entrant(cs, Never)]), r)
  {
    var t := s.(races := s.races[r := Entrant(cs, Never)]);
    assert RaceSound(s, r);
    forall q ensures RecordSound(t, q) && JobSound(t, q) { assert RecordSound(s, q) && JobSound(s, q); }
    forall q, x ensures Linked(t, q, x) { assert Linked(s, q, x); }
    forall x, c ensures Joined(t, x, c) { assert Joined(s, x, c); }
    forall x | x != r ensures RaceSound(t, x) {
      assert RaceSound(s, x);
      AppendKeepsRace(s, t, x);
    }
  }

  lemma StartKeepsInv(s: State, r: RaceId, cs: seq<Contender>)
    requires Inv(s) && r !in s.races
    ensures Inv(Started(s, r, cs))
  {
    var t := s.(races := s.races[r := Entrant(cs, Never)]);
    StartInTransit(s, r, cs);
    if |cs| == 1 {
      assert cs[0] in cs;
      EndKeepsInv(t, r, if cs[0].Primitive? then Finished(Fulfilled(cs[0].value)) else Following(cs[0].p));
    } else if |cs| > 1 {
      ScanKeepsInv(t, r, 0);
    } else {
      assert RaceSound(t, r);
    }
  }

  lemma SettleKeepsInv(s: State, p: Promise, o: Outcome)
    requires Inv(s)
    ensures Inv(Settled(s, p, o))
  {
    var t := Settled(s, p, o);
    forall q ensures RecordSound(t, q) && JobSound(t, q) { assert RecordSound(s, q) && JobSound(s, q); }
    forall q, x ensures Linked(t, q, x) { assert Linked(s, q, x); }
    forall x, c ensures Joined(t, x, c) { assert Joined(s, x, c); }
    forall x ensures RaceSound(t, x) {
      assert RaceSound(s, x);
      AppendKeepsRace(s, t, x);
    }
  }

  lemma AdoptKeepsInv(s: State, r: RaceId)
    requires Inv(s)
    ensures Inv(Step(s, Adopt(r)))
  {
    assert RaceSound(s, r);
    if r in s.races && s.races[r].phase.Following? && s.races[r].phase.p in s.outcomes {
      assert InTransit(s, r);
      EndKeepsInv(s, r, Finished(s.outcomes[s.races[r].phase.p]));
    }
  }

  lemma BeforeEachTail(jobs: seq<Job>, a: Job, b: Job)
    requires jobs != [] && BeforeEach(jobs, a, b) && jobs[0] != a
    ensures BeforeEach(jobs[1..], a, b)
  {
    forall k | 0 <= k < |jobs[1..]| && jobs[1..][k] == b ensures a in jobs[1..][..k] {
      assert a in jobs[..k + 1];
      var i :| 0 <= i < k + 1 && jobs[..k + 1][i] == a;
      assert jobs[1..][..k][i - 1] == a;
    }
  }

  lemma ResumeInTransit(s: State, r: RaceId)
    requires Inv(s) && s.jobs != [] && s.jobs[0] == Resume(r)
    ensures r in s.races && s.races[r].phase.Yielded?
    ensures InTransit(s.(jobs := s.jobs[1..]), r)
  {
    var t := s.(jobs := s.jobs[1..]);
    assert s.jobs == [Resume(r)] + t.jobs;
    assert RaceSound(s, r);
    forall q ensures RecordSound(t, q) && JobSound(t, q) { assert RecordSound(s, q) && JobSound(s, q); }
    forall q, x ensures Linked(t, q, x) { assert Linked(s, q, x); }
    forall x, c ensures Joined(t, x, c) { assert Joined(s, x, c); }
    forall x | x != r ensures RaceSound(t, x) {
      assert RaceSound(s, x);
      TailKeepsRace(s, t, x);
    }
  }

  lemma ResumeKeepsInv(s: State, r: RaceId)
    requires Inv(s) && s.jobs != [] && s.jobs[0] == Resume(r)
    ensures Inv(Ran(s))
  {
    var t := s.(jobs := s.jobs[1..]);
    ResumeInTransit(s, r);
    assert RaceSound(s, r);
    var i, cs := s.races[r].phase.at, s.races[r].contenders;
    if s.records[cs[i].p].settled {
      assert cs[i] in cs;
      EndKeepsInv(t, r, Following(cs[i].p));
    } else {
      ScanKeepsInv(t, r, i + 1);
    }
  }

  lemma TailKeepsRace(s: State, t: State, x: RaceId)
    requires RaceSound(s, x) && s.jobs != [] && t.jobs == s.jobs[1..]
    requires t.outcomes == s.outcomes && t.cancelled == s.cancelled
    requires s.records.Keys == t.records.Keys
    requires forall p | p in s.records && s.records[p].settled :: t.records[p].settled
    requires s.jobs[0].Fire? && s.jobs[0].p in s.records ==> t.records[s.jobs[0].p].settled
    requires x in s.races <==> x in t.races
    requires x in s.races ==> t.races[x] == s.races[x] && s.jobs[0] != Resume(x)
    ensures RaceSound(t, x)
  {
    assert s.jobs == [s.jobs[0]] + t.jobs;
    if x in s.races && s.races[x].phase.Yielded? && s.races[x].phase.was {
      var c := s.races[x].contenders[s.races[x].phase.at];
      if !s.records[c.p].settled && s.jobs[0] != Fire(c.p) {
        BeforeEachTail(s.jobs, Fire(c.p), Resume(x));
      }
    }
  }

  lemma FireKeepsInv(s: State, p: Promise)
    requires Inv(s) && s.jobs != [] && s.jobs[0] == Fire(p)
    ensures Inv(Ran(s))
  {
    var t := Ran(s);
    assert s.jobs == [Fire(p)] + t.jobs;
    assert JobSound(s, p) && RecordSound(s, p);
    forall q ensures RecordSound(t, q) && JobSound(t, q) { assert RecordSound(s, q) && JobSound(s, q); }
    forall q, x ensures Linked(t, q, x) { assert Linked(s, q, x); }
    forall x, c ensures Joined(t, x, c) { assert Joined(s, x, c); assert c.Thenable? ==> Linked(s, c.p, x); }
    forall x ensures RaceSound(t, x) {
      assert RaceSound(s, x) && Linked(s, p, x);
      if x in s.races && x in s.records[p].races && s.races[x].phase.Registered? {
        assert OwnOutcome(t, s.races[x].contenders, s.outcomes[p]);
      } else {
        TailKeepsRace(s, t, x);
      }
    }
  }

  lemma CancelKeepsInv(s: State, p: Promise)
    requires Inv(s)
    ensures Inv(CancelledAll(s, p))
  {
    var t := CancelledAll(s, p);
    forall q ensures RecordSound(t, q) && JobSound(t, q) { assert RecordSound(s, q) && JobSound(s, q); }
    forall q, x ensures Linked(t, q, x) { assert Linked(s, q, x); }
    forall x, c ensures Joined(t, x, c) { assert Joined(s, x, c); }
    forall x ensures RaceSound(t, x) {
      assert RaceSound(s, x) && Linked(s, p, x);
      if t != s && x in s.races && x in s.records[p].races && s.races[x].phase.Registered? {
        assert OwnOutcome(t, s.races[x].contenders, Cancelled);
      } else {
        AppendKeepsRace(s, t, x);
      }
    }
  }

  lemma CleanUpKeepsInv(s: State, r: RaceId)
    requires Inv(s)
    ensures Inv(CleanedUp(s, r))
  {
    var t := CleanedUp(s, r);
    forall q ensures RecordSound(t, q) && JobSound(t, q) { assert RecordSound(s, q) && JobSound(s, q); }
    forall q, x ensures Linked(t, q, x) { assert Linked(s, q, x); }
    forall x, c ensures Joined(t, x, c) { assert Joined(s, x, c); }
    forall x ensures RaceSound(t, x) {
      assert RaceSound(s, x);
      if x != r { AppendKeepsRace(s, t, x); }
    }
  }

  lemma StepKeepsInv(s: State, a: Action)
    requires Inv(s)
    ensures Inv(Step(s, a))
  {
    match a
    case Start(r, cs) => if r !in s.races { StartKeepsInv(s, r, cs); }
    case Settle(p, o) => SettleKeepsInv(s, p, o);
    case RunJob =>
      if s.jobs != [] {
        match s.jobs[0]
        case Fire(p) => FireKeepsInv(s, p);
        case Resume(r) => ResumeKeepsInv(s, r);
      }
    case CancelAll(p) => CancelKeepsInv(s, p);
    case CleanUp(r) => CleanUpKeepsInv(s, r);
    case Adopt(r) => AdoptKeepsInv(s, r);
  }

  lemma {:induction false} RunKeepsInv(acts: seq<Action>)
    ensures Inv(Exec(Initial, acts))
  {
    if acts != [] {
      RunKeepsInv(acts[..|acts| - 1]);
      StepKeepsInv(Exec(Initial, acts[..|acts| - 1]), acts[|acts| - 1]);
    }
  }

  // ---------------------------------------------------------------- what the registry promises

  /** A settler in a record belongs to an unfinished race over that contender; settled records are empty. */
  lemma RegistryIsClean(acts: seq<Action>, p: Promise, r: RaceId)
    ensures var s := Exec(Initial, acts);
            && (p in s.records && s.records[p].settled ==> s.records[p].races == {} && p in s.outcomes)
            && (p in s.records && r in s.records[p].races ==>
                  r in s.races && !s.races[r].phase.Finished? && Thenable(p) in s.races[r].contenders)
  {
    RunKeepsInv(acts);
    var s := Exec(Initial, acts);
    assert RecordSound(s, p) && Linked(s, p, r);
  }

  /** Race r still follows contender p, or has taken its outcome. */
  predicate StillFollows(t: State, r: RaceId, p: Promise) {
    && r in t.races
    && (t.races[r].phase == Following(p) || (p in t.outcomes && t.races[r].phase == Finished(t.outcomes[p])))
  }

  /** Records and outcomes only ever move forward. */
  ghost predicate Extends(s: State, t: State) {
    && s.records.Keys <= t.records.Keys
    && (forall p | p in s.records && s.records[p].settled :: t.records[p].settled)
    && s.outcomes.Keys <= t.outcomes.Keys && (forall p | p in s.outcomes :: t.outcomes[p] == s.outcomes[p])
    && (forall r | r in s.races :: r in t.races && t.races[r].contenders == s.races[r].contenders)
    && (forall r | r in s.races && s.races[r].phase.Locked? ::
          t.races[r].phase == s.races[r].phase || t.races[r].phase == Finished(s.races[r].phase.outcome))
    && (forall r | r in s.races && s.races[r].phase.Following? :: StillFollows(t, r, s.races[r].phase.p))
    && (forall r | r in s.races && s.races[r].phase.Finished? :: t.races[r].phase == s.races[r].phase)
  }

  /** Race q touched nothing but itself and the contenders of its own that were new. */
  ghost predicate MindsItsOwn(s: State, t: State, q: RaceId) {
    && q in s.races && q in t.races && t.races[q].contenders == s.races[q].contenders
    && t.outcomes == s.outcomes && t.cancelled == s.cancelled && t.races == s.races[q := t.races[q]]
    && s.records.Keys <= t.records.Keys
    && (forall p | p in s.records :: t.records[p].settled == s.records[p].settled)
    && s.jobs <= t.jobs && forall k | |s.jobs| <= k < |t.jobs| :: OwnJob(s, t, q, t.jobs[k])
  }

  /** Race q's resumption, or the watcher of a contender it has registered. */
  predicate OwnJob(s: State, t: State, q: RaceId, j: Job) {
    match j
    case Resume(x) => x == q
    case Fire(p) => p !in s.records && p in t.records
  }

  lemma ScanMindsItsOwn(s: State, q: RaceId, i: nat)
    requires InTransit(s, q) && i <= |s.races[q].contenders|
    requires forall j | 0 <= j < i :: KnownTo(s, s.races[q].contenders[j])
    ensures MindsItsOwn(s, Scan(s, q, i), q)
  {
    var cs := s.races[q].contenders;
    var j := ScanStops(s, q, i);
    if j == |cs| {
      JoinEffect(s, q, 0);
      forall p | p in s.records ensures Join(s, q, 0).records[p].settled == s.records[p].settled {
        assert JoinedRecord(s.records[p], Join(s, q, 0).records[p], q, Thenable(p) in cs);
      }
    } else {
      assert cs[j] in cs;
    }
  }

  lemma ResumeMindsItsOwn(s: State, q: RaceId)
    requires Inv(s) && s.jobs != [] && s.jobs[0] == Resume(q)
    ensures MindsItsOwn(s.(jobs := s.jobs[1..]), Ran(s), q)
  {
    ResumeInTransit(s, q);
    assert RaceSound(s, q);
    var i, cs := s.races[q].phase.at, s.races[q].contenders;
    if !s.records[cs[i].p].settled {
      ScanMindsItsOwn(s.(jobs := s.jobs[1..]), q, i + 1);
    }
  }

  /** A race that minds its own business and was not decided yet takes nothing back. */
  lemma OwnExtends(s: State, t: State, q: RaceId)
    requires MindsItsOwn(s, t, q) && (s.races[q].phase.Never? || s.races[q].phase.Yielded?)
    ensures Extends(s, t)
  {
  }

  lemma StartExtends(s: State, r: RaceId, cs: seq<Contender>)
    requires Inv(s) && r !in s.races
    ensures Extends(s, Started(s, r, cs))
    ensures forall x | x in s.races :: x in Started(s, r, cs).races && Started(s, r, cs).races[x] == s.races[x]
  {
    StartInTransit(s, r, cs);
    if |cs| > 1 {
      var s' := s.(races := s.races[r := Entrant(cs, Never)]);
      ScanMindsItsOwn(s', r, 0);
      OwnExtends(s', Started(s, r, cs), r);
    }
  }

  lemma FireExtends(s: State, p: Promise)
    ensures Extends(s, Fired(s, p))
  {
  }

  lemma CancelExtends(s: State, p: Promise)
    ensures Extends(s, CancelledAll(s, p))
  {
  }

  lemma SettleExtends(s: State, p: Promise, o: Outcome)
    ensures Extends(s, Settled(s, p, o))
  {
  }

  lemma CleanUpExtends(s: State, r: RaceId)
    ensures Extends(s, CleanedUp(s, r))
  {
  }

  lemma StepExtends(s: State, a: Action)
    requires Inv(s)
    ensures Extends(s, Step(s, a))
  {
    match a
    case Start(r, cs) => if r !in s.races { StartExtends(s, r, cs); }
    case Settle(p, o) => SettleExtends(s, p, o);
    case CancelAll(p) => CancelExtends(s, p);
    case CleanUp(r) => CleanUpExtends(s, r);
    case RunJob =>
      if s.jobs != [] {
        match s.jobs[0]
        case Fire(p) => FireExtends(s.(jobs := s.jobs[1..]), p);
        case Resume(r) =>
          ResumeInTransit(s, r);
          ResumeMindsItsOwn(s, r);
          OwnExtends(s.(jobs := s.jobs[1..]), Ran(s), r);
      }
    case _ =>
  }

  lemma {:induction false} RunExtends(acts: seq<Action>, more: seq<Action>)
    ensures Extends(Exec(Initial, acts), Exec(Initial, acts + more))
  {
    if more == [] {
      assert acts + more == acts;
    } else {
      var n := |more| - 1;
      assert (acts + more)[..|acts + more| - 1] == acts + more[..n];
      RunExtends(acts, more[..n]);
      RunKeepsInv(acts + more[..n]);
      StepExtends(Exec(Initial, acts + more[..n]), more[n]);
    }
  }

  /**
   * A contender has one record for life: it is never dropped, loses no settler of a race still
   * waiting, and once settled stays settled and empty.
   */
  lemma SettledForever(acts: seq<Action>, more: seq<Action>, p: Promise, r: RaceId)
    requires p in Exec(Initial, acts).records
    ensures var s, t := Exec(Initial, acts), Exec(Initial, acts + more);
            && p in t.records
            && (s.records[p].settled ==> t.records[p] == Record({}, true))
            && (r in s.records[p].races && r in t.races && t.races[r].phase.Registered? ==>
                  r in t.records[p].races && !t.records[p].settled)
  {
    RunExtends(acts, more);
    RunKeepsInv(acts);
    RunKeepsInv(acts + more);
    assert Linked(Exec(Initial, acts), p, r);
    assert RecordSound(Exec(Initial, acts + more), p) && Joined(Exec(Initial, acts + more), r, Thenable(p));
  }

  // ---------------------------------------------------------------- what a race leaves behind

  /** Nothing but the races and the records differs, and no record has come or gone. */
  predicate SameBut(s: State, t: State) {
    t.outcomes == s.outcomes && t.jobs == s.jobs && t.cancelled == s.cancelled && t.records.Keys == s.records.Keys
  }

  /** Settler r is in no record, every other settler and every flag where it was. */
  ghost predicate WithoutSettler(before: map<Promise, Record>, after: map<Promise, Record>, r: RaceId) {
    && after.Keys == before.Keys
    && forall p | p in before ::
         after[p].settled == before[p].settled && r !in after[p].races
         && forall q: RaceId | q != r :: q in after[p].races <==> q in before[p].races
  }

  lemma DropReachesAll(s: State, r: RaceId)
    requires RegistrySound(s) && r in s.races
    ensures WithoutSettler(s.records, Dropped(s.records, s.races[r].contenders, r), r)
  {
    var after := Dropped(s.records, s.races[r].contenders, r);
    forall p | p in s.records
      ensures after[p].settled == s.records[p].settled && after[p].races == s.records[p].races - {r}
    {
      assert Linked(s, p, r);
    }
  }

  /** The cleanup finishes the race with the outcome it was decided by and takes its settler out of the registry. */
  lemma CleanUpFinishes(acts: seq<Action>, r: RaceId, o: Outcome)
    requires r in Exec(Initial, acts).races && Exec(Initial, acts).races[r].phase == Locked(o)
    ensures var s, t := Exec(Initial, acts), Exec(Initial, acts + [CleanUp(r)]);
            && SameBut(s, t) && WithoutSettler(s.records, t.records, r)
            && t.races == s.races[r := Entrant(s.races[r].contenders, Finished(o))]
  {
    assert (acts + [CleanUp(r)])[..|acts|] == acts;
    RunKeepsInv(acts);
    DropReachesAll(Exec(Initial, acts), r);
  }

  /** A race that follows a contender finishes with that contender's outcome as soon as there is one. */
  lemma FollowedOutcomeIsTaken(acts: seq<Action>, r: RaceId, p: Promise)
    requires r in Exec(Initial, acts).races && Exec(Initial, acts).races[r].phase == Following(p)
    ensures var s, t := Exec(Initial, acts), Exec(Initial, acts + [Adopt(r)]);
            && (p !in s.outcomes ==> t == s)
            && (p in s.outcomes ==>
                  && SameBut(s, t) && t.records == s.records
                  && t.races == s.races[r := Entrant(s.races[r].contenders, Finished(s.outcomes[p]))])
  {
    assert (acts + [Adopt(r)])[..|acts|] == acts;
  }

  /**
   * cancel rejects the undecided races over the contender, all of them and no others, and leaves
   * no settler behind; a contender that is known settled or in no record is left alone.
   */
  lemma CancelRejectsAndForgets(acts: seq<Action>, p: Promise)
    ensures var s, t := Exec(Initial, acts), Exec(Initial, acts + [CancelAll(p)]);
            if p in s.records && !s.records[p].settled then
              && t.records == s.records[p := Record({}, false)]
              && t.outcomes == s.outcomes && t.jobs == s.jobs && t.races.Keys == s.races.Keys
              && (forall r | r in s.races :: t.races[r].contenders == s.races[r].contenders
                    && t.races[r].phase == if s.races[r].phase.Registered? && Thenable(p) in s.races[r].contenders
                                           then Locked(Cancelled) else s.races[r].phase)
            else
              t == s
  {
    assert (acts + [CancelAll(p)])[..|acts|] == acts;
    RunKeepsInv(acts);
    var s, t := Exec(Initial, acts), Exec(Initial, acts + [CancelAll(p)]);
    if p in s.records && !s.records[p].settled {
      forall r | r in s.races
        ensures t.races[r] == if s.races[r].phase.Registered? && Thenable(p) in s.races[r].contenders
                              then s.races[r].(phase := Locked(Cancelled)) else s.races[r]
      {
        assert Linked(s, p, r) && Joined(s, r, Thenable(p));
      }
    }
  }

  // ---------------------------------------------------------------- what decides a race

  predicate Decided(s: State, r: RaceId, o: Outcome) {
    r in s.races && (s.races[r].phase == Locked(o) || s.races[r].phase == Finished(o))
  }

  /** No later settlement, cancellation or job changes a decided race. */
  lemma OutcomeIsFinal(acts: seq<Action>, more: seq<Action>, r: RaceId, o: Outcome)
    requires Decided(Exec(Initial, acts), r, o)
    ensures Decided(Exec(Initial, acts + more), r, o)
  {
    RunExtends(acts, more);
  }

  /** Nor a race that follows a contender: it can only finish, with that contender's outcome. */
  lemma FollowerIsCommitted(acts: seq<Action>, more: seq<Action>, r: RaceId, p: Promise)
    requires r in Exec(Initial, acts).races && Exec(Initial, acts).races[r].phase == Following(p)
    ensures StillFollows(Exec(Initial, acts + more), r, p)
  {
    RunExtends(acts, more);
  }

  /** Without cancellation a race only takes the outcome of one of its own contenders. */
  lemma OutcomeIsAContenders(acts: seq<Action>, r: RaceId, o: Outcome)
    requires Decided(Exec(Initial, acts), r, o)
    requires forall k | 0 <= k < |acts| :: !acts[k].CancelAll?
    ensures var s := Exec(Initial, acts);
            var cs := s.races[r].contenders;
            || (exists v :: Primitive(v) in cs && o == Fulfilled(v))
            || (exists p :: Thenable(p) in cs && p in s.outcomes && s.outcomes[p] == o)
  {
    RunKeepsInv(acts);
    NothingCancelled(acts);
    assert RaceSound(Exec(Initial, acts), r);
  }

  lemma {:induction false} NothingCancelled(acts: seq<Action>)
    requires forall k | 0 <= k < |acts| :: !acts[k].CancelAll?
    ensures Exec(Initial, acts).cancelled == {}
  {
    if acts != [] {
      var n := |acts| - 1;
      var s := Exec(Initial, acts[..n]);
      NothingCancelled(acts[..n]);
      RunKeepsInv(acts[..n]);
      if acts[n].Start? && acts[n].r !in s.races {
        StartInTransit(s, acts[n].r, acts[n].contenders);
        if |acts[n].contenders| > 1 {
          ScanMindsItsOwn(s.(races := s.races[acts[n].r := Entrant(acts[n].contenders, Never)]), acts[n].r, 0);
        }
      } else if acts[n].RunJob? && s.jobs != [] && s.jobs[0].Resume? {
        ResumeMindsItsOwn(s, s.jobs[0].r);
      }
    }
  }

  /** What one action makes of a registered race. */
  function DecisionOf(s: State, cs: seq<Contender>, a: Action): Phase {
    if a.RunJob? && s.jobs != [] && s.jobs[0].Fire? && Thenable(s.jobs[0].p) in cs && s.jobs[0].p in s.outcomes then
      Locked(s.outcomes[s.jobs[0].p])
    else if a.CancelAll? && Thenable(a.p) in cs then
      Locked(Cancelled)
    else
      Registered
  }

  lemma StepDecides(s: State, r: RaceId, a: Action)
    requires Inv(s) && r in s.races && s.races[r].phase.Registered?
    ensures var t := Step(s, a);
            r in t.races && t.races[r] == s.races[r].(phase := DecisionOf(s, s.races[r].contenders, a))
  {
    match a
    case Start(x, cs) => if x !in s.races { StartExtends(s, x, cs); }
    case CancelAll(p) => assert Joined(s, r, Thenable(p)) && Linked(s, p, r);
    case RunJob =>
      if s.jobs != [] {
        match s.jobs[0]
        case Fire(p) => assert Joined(s, r, Thenable(p)) && Linked(s, p, r) && JobSound(s, p);
        case Resume(x) =>
          ResumeInTransit(s, x);
          ResumeMindsItsOwn(s, x);
      }
    case _ =>
  }

  /** A registered race is decided by the first watcher or cancellation of one of its contenders and nothing else. */
  lemma FirstSettlementDecides(acts: seq<Action>, r: RaceId, a: Action)
    requires r in Exec(Initial, acts).races && Exec(Initial, acts).races[r].phase.Registered?
    ensures var s, t := Exec(Initial, acts), Exec(Initial, acts + [a]);
            r in t.races && t.races[r] == s.races[r].(phase := DecisionOf(s, s.races[r].contenders, a))
  {
    assert (acts + [a])[..|acts|] == acts;
    RunKeepsInv(acts);
    StepDecides(Exec(Initial, acts), r, a);
  }

  function RunJobs(n: nat): seq<Action> {
    if n == 0 then [] else [RunJob] + RunJobs(n - 1)
  }

  /** One job either decides a registered race or brings the due watcher one place forward. */
  lemma OneJobForward(acts: seq<Action>, r: RaceId, p: Promise, k: nat)
    requires var s := Exec(Initial, acts);
             && r in s.races && s.races[r].phase.Registered? && Thenable(p) in s.races[r].contenders
             && k < |s.jobs| && s.jobs[k] == Fire(p)
    ensures var s, t := Exec(Initial, acts), Exec(Initial, acts + [RunJob]);
            && r in t.races && t.races[r].contenders == s.races[r].contenders
            && (t.races[r].phase.Locked?
                || (t.races[r].phase.Registered? && 0 < k && k - 1 < |t.jobs| && t.jobs[k - 1] == Fire(p)))
  {
    var s := Exec(Initial, acts);
    assert (acts + [RunJob])[..|acts|] == acts;
    RunKeepsInv(acts);
    FirstSettlementDecides(acts, r, RunJob);
    assert JobSound(s, p);
    StepExtends(s, RunJob);
    if s.jobs[0].Resume? {
      ResumeInTransit(s, s.jobs[0].r);
      ResumeMindsItsOwn(s, s.jobs[0].r);
      assert s.jobs[1..][k - 1] == Fire(p);
    }
  }

  /** No settlement is lost: once a contender has settled, the due jobs alone decide the race. */
  lemma {:induction false} SettledContenderDecides(acts: seq<Action>, r: RaceId, p: Promise, k: nat)
    returns (n: nat, o: Outcome)
    requires var s := Exec(Initial, acts);
             && r in s.races && s.races[r].phase.Registered? && Thenable(p) in s.races[r].contenders
             && k < |s.jobs| && s.jobs[k] == Fire(p)
    ensures n <= k + 1 && Decided(Exec(Initial, acts + RunJobs(n)), r, o)
    decreases k
  {
    OneJobForward(acts, r, p, k);
    var next := acts + [RunJob];
    var f := Exec(Initial, next).races[r].phase;
    if f.Locked? {
      n, o := 0, f.outcome;
      assert next + RunJobs(0) == next;
    } else {
      n, o := SettledContenderDecides(next, r, p, k - 1);
    }
    OneJobFirst(acts, n);
    n := n + 1;
  }

  lemma OneJobFirst(acts: seq<Action>, n: nat)
    ensures acts + RunJobs(n + 1) == acts + [RunJob] + RunJobs(n)
  {
  }

  /** While a contender is settled and its race undecided, the watcher that will decide it is due. */
  lemma SettlementIsDue(acts: seq<Action>, r: RaceId, p: Promise)
    requires var s := Exec(Initial, acts);
             && r in s.races && s.races[r].phase.Registered? && Thenable(p) in s.races[r].contenders && p in s.outcomes
    ensures Fire(p) in Exec(Initial, acts).jobs
  {
    RunKeepsInv(acts);
    var s := Exec(Initial, acts);
    assert Joined(s, r, Thenable(p)) && RecordSound(s, p);
  }

  // ---------------------------------------------------------------- already settled contenders

  /** A contender found settled when it was registered wins as soon as the race resumes. */
  lemma NewlyRegisteredWins(acts: seq<Action>, r: RaceId)
    requires var s := Exec(Initial, acts);
             && s.jobs != [] && s.jobs[0] == Resume(r) && r in s.races
             && s.races[r].phase.Yielded? && s.races[r].phase.was
    ensures var s := Exec(Initial, acts);
            && s.races[r].phase.at < |s.races[r].contenders| && s.races[r].contenders[s.races[r].phase.at].Thenable?
            && r in Ran(s).races
            && Ran(s).races[r].phase == Following(s.races[r].contenders[s.races[r].phase.at].p)
  {
    RunKeepsInv(acts);
    assert RaceSound(Exec(Initial, acts), r);
  }
}
