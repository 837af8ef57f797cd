/**
 * The in-flight counters of all buckets under any interleaving of overlapping calls.
 *
 * Which bucket a lookup finds, and whether a canary is allowed, is left open: every choice is a run.
 */
module CircuitInFlight {
  import opened SortedSets

  datatype CallPhase =
    | New
    | Gated                      // closed: about to count itself
    | Probing                    // open and nothing active: runs the half-open check and waits for it
    | Probed(bucket: Member)     // counted, not judged yet
    | TurnedAway
    | Running(awaited: bool)     // inside the function; false: entered half-open, its canary not awaited
    | Ended(awaited: bool)

  datatype CanaryPhase = NoCanary | Started | Counted(bucket: Member) | Passed | Denied

  datatype Frame = Frame(call: CallPhase, canary: CanaryPhase)

  datatype State = State(inFlight: map<Member, int>, frames: map<Member, Frame>)

  datatype Action =
    | Create(b: Member)                    // onExpired
    | BeginClosed(c: Member)
    | CountClosed(c: Member, b: Member)    // onClosed's HINCRBY
    | RefuseOpen(c: Member)                // onOpen with an active bucket
    | BeginOpen(c: Member)                 // onOpen without one
    | Probe(c: Member, b: Member)          // the awaited onHalfOpen's HINCRBY
    | AllowProbe(c: Member)
    | DenyProbe(c: Member)                 // its HINCRBY -1
    | BeginHalfOpen(c: Member)             // starts onHalfOpen and goes straight to the function
    | CountCanary(c: Member, b: Member)
    | PassCanary(c: Member)
    | DenyCanary(c: Member)
    | Finish(c: Member, b: Member)         // the finally block's HINCRBY -1, on whatever bucket is active then

  const Initial := State(map[], map[])

  function FrameOf(s: State, c: Member): Frame {
    if c in s.frames then s.frames[c] else Frame(New, NoCanary)
  }

  function At(counts: map<Member, int>, b: Member): int {
    if b in counts then counts[b] else 0
  }

  function Moved(s: State, c: Member, call: CallPhase): State {
    s.(frames := s.frames[c := FrameOf(s, c).(call := call)])
  }

  function CanaryMoved(s: State, c: Member, canary: CanaryPhase): State {
    s.(frames := s.frames[c := FrameOf(s, c).(canary := canary)])
  }

  function Bumped(s: State, b: Member, d: int): State {
    s.(inFlight := s.inFlight[b := At(s.inFlight, b) + d])
  }

  function Step(s: State, a: Action): State {
    match a
    case Create(b) => if b in s.inFlight then s else Bumped(s, b, 0)
    case BeginClosed(c) => if FrameOf(s, c).call.New? then Moved(s, c, Gated) else s
    case CountClosed(c, b) => if FrameOf(s, c).call.Gated? then Bumped(Moved(s, c, Running(true)), b, 1) else s
    case RefuseOpen(c) => if FrameOf(s, c).call.New? then Moved(s, c, TurnedAway) else s
    case BeginOpen(c) => if FrameOf(s, c).call.New? then Moved(s, c, Probing) else s
    case Probe(c, b) => if FrameOf(s, c).call.Probing? then Bumped(Moved(s, c, Probed(b)), b, 1) else s
    case AllowProbe(c) => if FrameOf(s, c).call.Probed? then Moved(s, c, Running(true)) else s
    case DenyProbe(c) =>
      if FrameOf(s, c).call.Probed? then Bumped(Moved(s, c, TurnedAway), FrameOf(s, c).call.bucket, -1) else s
    case BeginHalfOpen(c) =>
      if FrameOf(s, c).call.New? then CanaryMoved(Moved(s, c, Running(false)), c, Started) else s
    case CountCanary(c, b) =>
      if FrameOf(s, c).canary.Started? then Bumped(CanaryMoved(s, c, Counted(b)), b, 1) else s
    case PassCanary(c) => if FrameOf(s, c).canary.Counted? then CanaryMoved(s, c, Passed) else s
    case DenyCanary(c) =>
      if FrameOf(s, c).canary.Counted? then Bumped(CanaryMoved(s, c, Denied), FrameOf(s, c).canary.bucket, -1) else s
    case Finish(c, b) =>
      if FrameOf(s, c).call.Running? then Bumped(Moved(s, c, Ended(FrameOf(s, c).call.awaited)), b, -1) else s
  }

  function Exec(s: State, acts: seq<Action>): State {
    if acts == [] then s else Step(Exec(s, acts[..|acts| - 1]), acts[|acts| - 1])
  }

  // ---------------------------------------------------------------- sums over buckets

  ghost function Sum(counts: map<Member, int>): int
    decreases |counts|
  {
    if counts == map[] then
      0
    else
      var b :| b in counts;
      assert (counts - {b}).Keys == counts.Keys - {b};
      counts[b] + Sum(counts - {b})
  }

  lemma {:induction false} SumWithout(counts: map<Member, int>, b: Member)
    requires b in counts
    ensures Sum(counts) == counts[b] + Sum(counts - {b})
    decreases |counts|
  {
    var x :| x in counts && Sum(counts) == counts[x] + Sum(counts - {x});
    if x != b {
      var rest := counts - {x};
      assert rest.Keys == counts.Keys - {x};
      SumWithout(rest, b);
      var less := counts - {b};
      assert less.Keys == counts.Keys - {b};
      SumWithout(less, x);
      assert rest - {b} == less - {x};
    }
  }

  lemma SumBumped(counts: map<Member, int>, b: Member, d: int)
    ensures Sum(counts[b := At(counts, b) + d]) == Sum(counts) + d
  {
    var after := counts[b := At(counts, b) + d];
    SumWithout(after, b);
    assert after - {b} == counts - {b};
    if b in counts {
      SumWithout(counts, b);
    } else {
      assert counts - {b} == counts;
    }
  }

  // ---------------------------------------------------------------- conservation

  predicate Admitted(f: Frame) {
    f.call.Probed? || f.call == Running(true)
  }

  predicate CanaryCounts(f: Frame) {
    f.canary.Counted? || f.canary.Passed?
  }

  predicate EndedHalfOpen(f: Frame) {
    f.call == Ended(false)
  }

  /** Calls admitted from closed or open that have counted themselves and not finished. */
  function InProgress(s: State): set<Member> {
    set c | c in s.frames && Admitted(s.frames[c])
  }

  /** Canaries that have counted themselves and were not denied. */
  function CanariesIn(s: State): set<Member> {
    set c | c in s.frames && CanaryCounts(s.frames[c])
  }

  /** Calls that entered half-open and have finished, subtracting what only their canary may have added. */
  function HalfOpenEnded(s: State): set<Member> {
    set c | c in s.frames && EndedHalfOpen(s.frames[c])
  }

  function DeniedCanaries(s: State): set<Member> {
    set c | c in s.frames && s.frames[c].canary.Denied?
  }

  /** What one call should have left in the counters. */
  function Share(f: Frame): int {
    (if Admitted(f) then 1 else 0) + (if CanaryCounts(f) then 1 else 0) - (if EndedHalfOpen(f) then 1 else 0)
  }

  function Balance(s: State): int {
    |InProgress(s)| + |CanariesIn(s)| - |HalfOpenEnded(s)|
  }

  /** Only half-open calls have a canary. */
  predicate Accounted(f: Frame) {
    f.canary.NoCanary? <==> f.call != Running(false) && f.call != Ended(false)
  }

  ghost predicate Inv(s: State) {
    && (forall c | c in s.frames :: Accounted(s.frames[c]))
    && Sum(s.inFlight) == Balance(s)
  }

  /** A set that differs at most at c differs in size by at most c. */
  lemma SetChange(before: set<Member>, after: set<Member>, c: Member)
    requires before - {c} == after - {c}
    ensures |after| == |before| + (if c in after then 1 else 0) - (if c in before then 1 else 0)
  {
    assert c in before ==> before == (before - {c}) + {c};
    assert c in after ==> after == (after - {c}) + {c};
    assert c !in before ==> before == before - {c};
    assert c !in after ==> after == after - {c};
  }

  lemma BalanceChange(s: State, c: Member, f: Frame)
    ensures Balance(s.(frames := s.frames[c := f])) == Balance(s) + Share(f) - Share(FrameOf(s, c))
  {
    var s' := s.(frames := s.frames[c := f]);
    SetChange(InProgress(s), InProgress(s'), c);
    SetChange(CanariesIn(s), CanariesIn(s'), c);
    SetChange(HalfOpenEnded(s), HalfOpenEnded(s'), c);
  }

  /** The frame of the acting call, and how far the counters move. */
  function Outcome(s: State, a: Action): (Frame, int)
    requires !a.Create?
  {
    (FrameOf(Step(s, a), a.c), Share(FrameOf(Step(s, a), a.c)) - Share(FrameOf(s, a.c)))
  }

  /** The bucket whose counter an action moves. */
  function Hit(s: State, a: Action): Member {
    match a
    case CountClosed(_, b) => b
    case Probe(_, b) => b
    case CountCanary(_, b) => b
    case Finish(_, b) => b
    case DenyProbe(c) => if FrameOf(s, c).call.Probed? then FrameOf(s, c).call.bucket else 0
    case DenyCanary(c) => if FrameOf(s, c).canary.Counted? then FrameOf(s, c).canary.bucket else 0
    case _ => 0
  }

  /** Every step moves some bucket by exactly the change of the acting call's share. */
  lemma StepMovesShare(s: State, a: Action)
    requires !a.Create? && Step(s, a) != s && (a.c in s.frames ==> Accounted(s.frames[a.c]))
    ensures var (f, d) := Outcome(s, a);
            && Step(s, a).frames == s.frames[a.c := f] && Accounted(f)
            && Step(s, a).inFlight
               == if d == 0 then s.inFlight else s.inFlight[Hit(s, a) := At(s.inFlight, Hit(s, a)) + d]
  {
  }

  lemma StepKeepsInv(s: State, a: Action)
    requires Inv(s)
    ensures Inv(Step(s, a))
  {
    var s' := Step(s, a);
    if s' != s && a.Create? {
      SumBumped(s.inFlight, a.b, 0);
    } else if s' != s {
      StepMovesShare(s, a);
      var (f, d) := Outcome(s, a);
      BalanceChange(s, a.c, f);
      assert Balance(s') == Balance(s.(frames := s.frames[a.c := f]));
      SumBumped(s.inFlight, Hit(s, a), d);
    }
  }

  lemma {:induction false} RunKeepsInv(acts: seq<Action>)
    ensures Inv(Exec(Initial, acts))
  {
    if acts != [] {
      RunKeepsInv(acts[..|acts| - 1]);
      StepKeepsInv(Exec(Initial, acts[..|acts| - 1]), acts[|acts| - 1]);
    }
  }

  /** In every run the counters of all buckets sum up to these three groups of calls, whatever bucket each step hits. */
  lemma CountersBalance(acts: seq<Action>)
    ensures var s := Exec(Initial, acts);
            Sum(s.inFlight) == |InProgress(s)| + |CanariesIn(s)| - |HalfOpenEnded(s)|
  {
    RunKeepsInv(acts);
  }

  /** While no call enters half-open, the counters of all buckets sum up to the calls in progress. */
  lemma InFlightIsConserved(acts: seq<Action>)
    requires forall k | 0 <= k < |acts| :: !acts[k].BeginHalfOpen?
    ensures Sum(Exec(Initial, acts).inFlight) == |InProgress(Exec(Initial, acts))|
  {
    RunKeepsInv(acts);
    var s := Exec(Initial, acts);
    forall c ensures FrameOf(s, c).canary.NoCanary? {
      NoCanaryStarted(acts, c);
    }
    forall c | c in s.frames ensures !CanaryCounts(s.frames[c]) && !EndedHalfOpen(s.frames[c]) {
      assert FrameOf(s, c).canary.NoCanary? && Accounted(s.frames[c]);
    }
    assert CanariesIn(s) == {} && HalfOpenEnded(s) == {};
  }

  lemma {:induction false} NoCanaryStarted(acts: seq<Action>, c: Member)
    requires forall k | 0 <= k < |acts| :: !acts[k].BeginHalfOpen?
    ensures FrameOf(Exec(Initial, acts), c).canary.NoCanary?
  {
    if acts != [] {
      NoCanaryStarted(acts[..|acts| - 1], c);
    }
  }

  /** Every call is over and every canary has had its say. */
  ghost predicate Quiescent(s: State) {
    forall c | c in s.frames ::
      && (s.frames[c].call.TurnedAway? || s.frames[c].call.Ended?)
      && !s.frames[c].canary.Started? && !s.frames[c].canary.Counted?
  }

  /** At rest the counters are off by exactly minus one for every canary denied on the un-awaited path. */
  lemma DeniedCanariesLeak(acts: seq<Action>)
    requires Quiescent(Exec(Initial, acts))
    ensures Sum(Exec(Initial, acts).inFlight) == -|DeniedCanaries(Exec(Initial, acts))|
  {
    RunKeepsInv(acts);
    var s := Exec(Initial, acts);
    assert InProgress(s) == {};
    assert forall c | c in s.frames :: Accounted(s.frames[c]);
    assert HalfOpenEnded(s) == CanariesIn(s) + DeniedCanaries(s);
    assert CanariesIn(s) !! DeniedCanaries(s);
  }

  // ---------------------------------------------------------------- every kind of call comes to its end

  /** One more action takes the calling frame, and only it, on to f. */
  lemma Extend(acts: seq<Action>, a: Action, f: Frame)
    requires !a.Create? && Step(Exec(Initial, acts), a).frames == Exec(Initial, acts).frames[a.c := f]
    ensures Exec(Initial, acts + [a]).frames == Exec(Initial, acts).frames[a.c := f]
    ensures Exec(Initial, acts + [a]) == Step(Exec(Initial, acts), a)
  {
    assert (acts + [a])[..|acts|] == acts;
  }

  /** What a call does from start to end, by how it comes in and what its canary is told. */
  datatype Course = PassedClosed | RefusedOpen | ProbeAllowed | ProbeDenied | CanaryPassed | CanaryDenied

  function EndOf(course: Course): Frame {
    match course
    case PassedClosed | ProbeAllowed => Frame(Ended(true), NoCanary)
    case RefusedOpen | ProbeDenied => Frame(TurnedAway, NoCanary)
    case CanaryPassed => Frame(Ended(false), Passed)
    case CanaryDenied => Frame(Ended(false), Denied)
  }

  /** Its steps with nothing in between and the frame after each; it is counted in bucket b and leaves on bucket d. */
  function StepsOf(c: Member, course: Course, b: Member, d: Member): seq<(Action, Frame)> {
    match course
    case PassedClosed =>
      [(BeginClosed(c), Frame(Gated, NoCanary)), (CountClosed(c, b), Frame(Running(true), NoCanary)),
       (Finish(c, d), EndOf(course))]
    case RefusedOpen =>
      [(RefuseOpen(c), EndOf(course))]
    case ProbeAllowed =>
      [(BeginOpen(c), Frame(Probing, NoCanary)), (Probe(c, b), Frame(Probed(b), NoCanary)),
       (AllowProbe(c), Frame(Running(true), NoCanary)), (Finish(c, d), EndOf(course))]
    case ProbeDenied =>
      [(BeginOpen(c), Frame(Probing, NoCanary)), (Probe(c, b), Frame(Probed(b), NoCanary)),
       (DenyProbe(c), EndOf(course))]
    case CanaryPassed =>
      [(BeginHalfOpen(c), Frame(Running(false), Started)), (CountCanary(c, b), Frame(Running(false), Counted(b))),
       (PassCanary(c), Frame(Running(false), Passed)), (Finish(c, d), EndOf(course))]
    case CanaryDenied =>
      [(BeginHalfOpen(c), Frame(Running(false), Started)), (CountCanary(c, b), Frame(Running(false), Counted(b))),
       (DenyCanary(c), Frame(Running(false), Denied)), (Finish(c, d), EndOf(course))]
  }

  /** Each step of a course leads from the frame before it to the frame after it. */
  lemma CourseGoesOn(s: State, c: Member, course: Course, b: Member, d: Member, i: nat)
    requires i < |StepsOf(c, course, b, d)|
    requires FrameOf(s, c) == if i == 0 then Frame(New, NoCanary) else StepsOf(c, course, b, d)[i - 1].1
    ensures var (a, f) := StepsOf(c, course, b, d)[i];
            !a.Create? && a.c == c && Step(s, a).frames == s.frames[c := f]
  {
  }

  /** The first i steps after a run. */
  lemma {:induction false} CourseRuns(acts: seq<Action>, c: Member, course: Course, b: Member, d: Member, i: nat)
    returns (next: seq<Action>)
    requires c !in Exec(Initial, acts).frames && 1 <= i <= |StepsOf(c, course, b, d)|
    ensures Exec(Initial, next).frames == Exec(Initial, acts).frames[c := StepsOf(c, course, b, d)[i - 1].1]
    decreases i
  {
    next := acts;
    if i > 1 {
      next := CourseRuns(acts, c, course, b, d, i - 1);
    }
    var (a, f) := StepsOf(c, course, b, d)[i - 1];
    CourseGoesOn(Exec(Initial, next), c, course, b, d, i - 1);
    Extend(next, a, f);
    next := next + [a];
  }

  /** From any run every course is open to a new call, and only a denied canary changes what the buckets add up to. */
  lemma CallsComeToTheirEnd(acts: seq<Action>, c: Member, course: Course, b: Member, d: Member)
    returns (next: seq<Action>)
    requires c !in Exec(Initial, acts).frames
    ensures var s, t := Exec(Initial, acts), Exec(Initial, next);
            && t.frames == s.frames[c := EndOf(course)]
            && Sum(t.inFlight) == Sum(s.inFlight) - if course == CanaryDenied then 1 else 0
  {
    next := CourseRuns(acts, c, course, b, d, |StepsOf(c, course, b, d)|);
    var s, t := Exec(Initial, acts), Exec(Initial, next);
    RunKeepsInv(acts);
    RunKeepsInv(next);
    BalanceChange(s, c, EndOf(course));
    assert Balance(t) == Balance(s.(frames := s.frames[c := EndOf(course)]));
  }

  /** There is no bound to the leak: n denied canaries leave the counters at minus n, with nobody in flight. */
  lemma {:induction false} LeakIsUnbounded(n: nat) returns (acts: seq<Action>)
    ensures var s := Exec(Initial, acts);
            && Quiescent(s) && Sum(s.inFlight) == 0 - n
            && forall c :: c in s.frames <==> 1 <= c <= n
  {
    acts := [];
    if n > 0 {
      acts := LeakIsUnbounded(n - 1);
      acts := CallsComeToTheirEnd(acts, n, CanaryDenied, 0, 0);
    }
  }
}
