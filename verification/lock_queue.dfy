/**
 * The distributed FIFO lock queue of one key, as a transition system over all its callers.
 *
 * Reading the clock, adding the entry, taking the snapshot, judging it, cleaning up and removing
 * the entry are separate steps.  A step whose caller is elsewhere does nothing.
 */
module LockQueue {
  import opened SortedSets

  datatype Config = Config(maxDuration: int, maxAttempts: nat)

  /** The snapshot asks for at most this many entries. */
  const SNAPSHOT: nat := 20

  datatype Frame =
    | Away
    | Arriving(score: int)
    | Waiting(score: int, attempt: nat)
    | Looking(score: int, attempt: nat, snap: seq<Entry>)
    | Cleaning(score: int, upto: Option<int>)
    | Inside(score: int)
    | Leaving(score: int)
    | Done

  datatype State = State(
    clock: int,
    queue: ZSet,
    frames: map<Member, Frame>,
    arrivals: seq<Member>,
    admissions: seq<Member>)

  datatype Action =
    | Tick(d: nat)
    | Arrive(c: Member)    // read the clock and fix the deadline
    | Enqueue(c: Member)   // ZADD
    | Look(c: Member)      // ZRANGE up to the own deadline
    | Decide(c: Member)    // read the clock and judge the snapshot
    | CleanUp(c: Member)   // ZREMRANGEBYSCORE of what was seen expired
    | Leave(c: Member)     // the function has returned or thrown
    | GiveUp(c: Member)    // the attempts are used up
    | Remove(c: Member)    // the final ZREM

  const Initial := State(0, map[], map[], [], [])

  function FrameOf(s: State, c: Member): Frame {
    if c in s.frames then s.frames[c] else Away
  }

  function Goto(s: State, c: Member, f: Frame): State {
    s.(frames := s.frames[c := f])
  }

  // ---------------------------------------------------------------- judging a snapshot

  datatype Verdict = Denied | Admitted(upto: Option<int>)

  function MaxOf(xs: seq<int>): (m: Option<int>)
    ensures m == None <==> xs == []
    ensures m != None ==> m.value in xs && forall x | x in xs :: x <= m.value
  {
    if xs == [] then
      None
    else
      var rest := MaxOf(xs[1..]);
      assert xs == [xs[0]] + xs[1..];
      Some(if rest == None || rest.value < xs[0] then xs[0] else rest.value)
  }

  /** Skip expired entries, remembering their scores; the first live one decides. */
  function Judge(snap: seq<Entry>, now: int, c: Member, expired: seq<int>): Verdict {
    if snap == [] then
      Denied
    else if snap[0].score <= now then
      Judge(snap[1..], now, c, expired + [snap[0].score])
    else if snap[0].member == c then
      Admitted(MaxOf(expired))
    else
      Denied
  }

  /** Entry k is the caller's, is live, and everything ahead of it has expired. */
  predicate FirstLive(snap: seq<Entry>, now: int, c: Member, k: nat) {
    k < |snap| && snap[k].member == c && snap[k].score > now && forall j | 0 <= j < k :: snap[j].score <= now
  }

  function Scores(snap: seq<Entry>): seq<int> {
    seq(|snap|, i requires 0 <= i < |snap| => snap[i].score)
  }

  /** A caller is admitted when its own entry comes first among the live ones; the largest score ahead goes with it. */
  lemma {:induction false} JudgeMeans(snap: seq<Entry>, now: int, c: Member, expired: seq<int>)
    requires forall x | x in expired :: x <= now
    ensures var v := Judge(snap, now, c, expired);
            && (v.Admitted? <==> exists k :: FirstLive(snap, now, c, k))
            && (forall k: nat | FirstLive(snap, now, c, k) :: v == Admitted(MaxOf(expired + Scores(snap[..k]))))
            && (v.Admitted? && v.upto != None ==> v.upto.value <= now)
  {
    if snap != [] {
      if snap[0].score <= now {
        JudgeMeans(snap[1..], now, c, expired + [snap[0].score]);
        if k: nat :| FirstLive(snap[1..], now, c, k) {
          assert FirstLive(snap, now, c, k + 1);
        }
        forall k: nat | FirstLive(snap, now, c, k)
          ensures Judge(snap, now, c, expired) == Admitted(MaxOf(expired + Scores(snap[..k])))
        {
          assert FirstLive(snap[1..], now, c, k - 1);
          assert expired + [snap[0].score] + Scores(snap[1..][..k - 1]) == expired + Scores(snap[..k]);
        }
      } else if snap[0].member == c {
        assert FirstLive(snap, now, c, 0);
        assert expired + Scores(snap[..0]) == expired;
      }
    }
  }

  lemma JudgedAlone(snap: seq<Entry>, now: int, c: Member)
    ensures Judge(snap, now, c, []).Admitted? <==> exists k :: FirstLive(snap, now, c, k)
    ensures forall k: nat | FirstLive(snap, now, c, k) ::
              Judge(snap, now, c, []) == Admitted(MaxOf(Scores(snap[..k])))
  {
    JudgeMeans(snap, now, c, []);
    forall k: nat | FirstLive(snap, now, c, k) ensures [] + Scores(snap[..k]) == Scores(snap[..k]) {}
  }

  // ---------------------------------------------------------------- the steps

  function Enqueued(s: State, c: Member): State {
    match FrameOf(s, c)
    case Arriving(score) =>
      Goto(s, c, Waiting(score, 0)).(queue := ZAdd(s.queue, c, score), arrivals := s.arrivals + [c])
    case _ => s
  }

  ghost function Looked(cfg: Config, s: State, c: Member): State {
    match FrameOf(s, c)
    case Waiting(score, n) =>
      if n < cfg.maxAttempts then Goto(s, c, Looking(score, n, ZRange(s.queue, score, SNAPSHOT))) else s
    case _ => s
  }

  function Decided(s: State, c: Member): State {
    match FrameOf(s, c)
    case Looking(score, n, snap) =>
      (match Judge(snap, s.clock, c, [])
       case Denied => Goto(s, c, Waiting(score, n + 1))
       case Admitted(upto) => Goto(s, c, Cleaning(score, upto)).(admissions := s.admissions + [c]))
    case _ => s
  }

  function CleanedUp(s: State, c: Member): State {
    match FrameOf(s, c)
    case Cleaning(score, None) => Goto(s, c, Inside(score))
    case Cleaning(score, Some(m)) => Goto(s, c, Inside(score)).(queue := ZRemRangeByScore(s.queue, Some(0), m))
    case _ => s
  }

  function Removed(s: State, c: Member): State {
    if FrameOf(s, c).Leaving? then Goto(s, c, Done).(queue := ZRem(s.queue, c)) else s
  }

  ghost function Step(cfg: Config, s: State, a: Action): State {
    match a
    case Tick(d) => s.(clock := s.clock + d)
    case Arrive(c) => if FrameOf(s, c).Away? then Goto(s, c, Arriving(s.clock + cfg.maxDuration)) else s
    case Enqueue(c) => Enqueued(s, c)
    case Look(c) => Looked(cfg, s, c)
    case Decide(c) => Decided(s, c)
    case CleanUp(c) => CleanedUp(s, c)
    case Leave(c) => if FrameOf(s, c).Inside? then Goto(s, c, Leaving(FrameOf(s, c).score)) else s
    case GiveUp(c) =>
      if FrameOf(s, c).Waiting? && FrameOf(s, c).attempt >= cfg.maxAttempts
      then Goto(s, c, Leaving(FrameOf(s, c).score)) else s
    case Remove(c) => Removed(s, c)
  }

  ghost function Exec(cfg: Config, s: State, acts: seq<Action>): State {
    if acts == [] then s else Step(cfg, Exec(cfg, s, acts[..|acts| - 1]), acts[|acts| - 1])
  }

  // ---------------------------------------------------------------- invariants

  /** Between adding the entry and removing it. */
  predicate Present(f: Frame) {
    f.Waiting? || f.Looking? || f.Cleaning? || f.Inside? || f.Leaving?
  }

  predicate Undecided(f: Frame) {
    f.Waiting? || f.Looking?
  }

  predicate Entered(f: Frame) {
    f.Cleaning? || f.Inside?
  }

  /** A present caller's entry can only be missing once its deadline has passed. */
  predicate EntryKept(s: State, c: Member) {
    var f := FrameOf(s, c);
    && (c in s.queue ==> Present(f) && s.queue[c] == f.score)
    && (Present(f) && f.score > s.clock ==> c in s.queue)
    && (f.Cleaning? && f.upto != None ==> f.upto.value <= s.clock)
    && (f.Looking? ==> forall k | 0 <= k < |f.snap| && f.snap[k].member == c :: f.snap[k].score == f.score)
  }

  /** Wherever c shows up in the snapshot, e is somewhere ahead of it. */
  ghost predicate ShownAhead(snap: seq<Entry>, e: Entry, c: Member) {
    forall k | 0 <= k < |snap| && snap[k].member == c :: e in snap[..k]
  }

  /** Live entries ahead of a caller that is judging its snapshot are in the snapshot, ahead of it. */
  ghost predicate SnapshotCurrent(s: State, c: Member, x: Member) {
    var f := FrameOf(s, c);
    f.Looking? && x in s.queue && s.queue[x] > s.clock && Before(s.queue[x], x, f.score, c) ==>
      ShownAhead(f.snap, Entry(x, s.queue[x]), c)
  }

  /** No live entry is ahead of an admitted caller whose own entry is live. */
  predicate HeadOfQueue(s: State, c: Member, x: Member) {
    Entered(FrameOf(s, c)) && FrameOf(s, c).score > s.clock && x in s.queue && s.queue[x] > s.clock
    ==> !Before(s.queue[x], x, FrameOf(s, c).score, c)
  }

  /** The arrival-order hypothesis at one step: a new entry sorts after all entries present. */
  ghost predicate ArrivesLast(s: State, a: Action) {
    a.Enqueue? && FrameOf(s, a.c).Arriving? ==>
      forall y | y in s.queue :: Before(s.queue[y], y, FrameOf(s, a.c).score, a.c)
  }

  lemma StepKeepsEntry(cfg: Config, s: State, a: Action, c: Member)
    requires EntryKept(s, c)
    requires !a.Tick? ==> EntryKept(s, a.c)
    ensures EntryKept(Step(cfg, s, a), c)
  {
    if a.Decide? && FrameOf(s, a.c).Looking? {
      JudgeMeans(FrameOf(s, a.c).snap, s.clock, a.c, []);
    }
  }

  /** A snapshot that reaches c has everything that sorts before c. */
  lemma SnapshotShowsAhead(z: ZSet, hi: int, count: nat, c: Member, x: Member)
    requires c in z ==> z[c] == hi
    requires x in z && Before(z[x], x, hi, c)
    ensures ShownAhead(ZRange(z, hi, count), Entry(x, z[x]), c)
  {
    var snap := ZRange(z, hi, count);
    forall k | 0 <= k < |snap| && snap[k].member == c ensures Entry(x, z[x]) in snap[..k] {
      if j :| 0 <= j < |snap| && snap[j].member == x {
        assert j < k && snap[..k][j] == Entry(x, z[x]);
      } else {
        assert false;
      }
    }
  }

  lemma StepKeepsSnapshot(cfg: Config, s: State, a: Action, c: Member, x: Member)
    requires EntryKept(s, c) && EntryKept(s, x) && SnapshotCurrent(s, c, x) && ArrivesLast(s, a)
    ensures SnapshotCurrent(Step(cfg, s, a), c, x)
  {
    var f := FrameOf(s, c);
    if a == Look(c) && f.Waiting? && x in s.queue && Before(s.queue[x], x, f.score, c) {
      SnapshotShowsAhead(s.queue, f.score, SNAPSHOT, c, x);
    }
  }

  lemma StepKeepsHead(cfg: Config, s: State, a: Action, c: Member, x: Member)
    requires EntryKept(s, c) && EntryKept(s, x) && SnapshotCurrent(s, c, x) && HeadOfQueue(s, c, x) && ArrivesLast(s, a)
    ensures HeadOfQueue(Step(cfg, s, a), c, x)
  {
    if a == Decide(c) && FrameOf(s, c).Looking? {
      JudgeMeans(FrameOf(s, c).snap, s.clock, c, []);
    }
  }

  // ---------------------------------------------------------------- order of arrival

  ghost predicate Precedes(xs: seq<Member>, a: Member, b: Member) {
    exists i, j :: 0 <= i < j < |xs| && xs[i] == a && xs[j] == b
  }

  lemma PrecedesSnoc(xs: seq<Member>, c: Member, a: Member, b: Member)
    ensures Precedes(xs + [c], a, b) <==> Precedes(xs, a, b) || (b == c && a in xs)
  {
    var ys := xs + [c];
    if Precedes(xs, a, b) {
      var i, j :| 0 <= i < j < |xs| && xs[i] == a && xs[j] == b;
      assert ys[i] == a && ys[j] == b;
    }
    if b == c && a in xs {
      var i :| 0 <= i < |xs| && xs[i] == a;
      assert ys[i] == a && ys[|xs|] == b;
    }
    if Precedes(ys, a, b) && !Precedes(xs, a, b) {
      var i, j :| 0 <= i < j < |ys| && ys[i] == a && ys[j] == b;
      assert j == |xs| && xs[i] == a;
    }
  }

  lemma OneIsFirst(xs: seq<Member>, a: Member, b: Member)
    requires a in xs && b in xs && a != b
    ensures Precedes(xs, a, b) || Precedes(xs, b, a)
  {
    var i :| 0 <= i < |xs| && xs[i] == a;
    var j :| 0 <= j < |xs| && xs[j] == b;
  }

  /** The histories list exactly the callers that got that far. */
  predicate HistoryKnown(s: State, c: Member) {
    && (c in s.arrivals <==> Present(FrameOf(s, c)) || FrameOf(s, c).Done?)
    && (c in s.admissions ==> c in s.arrivals && !Undecided(FrameOf(s, c)))
    && (Entered(FrameOf(s, c)) ==> c in s.admissions)
  }

  /** While a's deadline runs, a later arrival sorts after it. */
  ghost predicate SortedByArrival(s: State, a: Member, b: Member) {
    a != b && Precedes(s.arrivals, a, b) && Present(FrameOf(s, a)) && FrameOf(s, a).score > s.clock
    && Present(FrameOf(s, b))
    ==> Before(FrameOf(s, a).score, a, FrameOf(s, b).score, b)
  }

  /** Whoever still waits while a later arrival got in has missed its deadline. */
  ghost predicate OnlyExpiredPassed(s: State, a: Member, b: Member) {
    b in s.admissions && Precedes(s.arrivals, a, b) && Undecided(FrameOf(s, a)) ==> FrameOf(s, a).score <= s.clock
  }

  /** Admissions follow arrivals. */
  ghost predicate Fifo(s: State) {
    forall i, j | 0 <= i < j < |s.admissions| ::
      s.admissions[i] != s.admissions[j] && Precedes(s.arrivals, s.admissions[i], s.admissions[j])
  }

  lemma StepKeepsHistory(cfg: Config, s: State, a: Action, c: Member)
    requires HistoryKnown(s, c)
    ensures HistoryKnown(Step(cfg, s, a), c)
  {
  }

  lemma StepKeepsSorted(cfg: Config, s: State, act: Action, a: Member, b: Member)
    requires EntryKept(s, a) && HistoryKnown(s, a) && HistoryKnown(s, b)
    requires SortedByArrival(s, a, b) && ArrivesLast(s, act)
    ensures SortedByArrival(Step(cfg, s, act), a, b)
  {
    if act.Enqueue? {
      PrecedesSnoc(s.arrivals, act.c, a, b);
    }
  }

  /** Getting in means the own deadline is ahead and every live entry that sorts earlier is not there. */
  lemma AdmissionMeans(s: State, c: Member)
    requires EntryKept(s, c) && FrameOf(s, c).Looking? && Decided(s, c).admissions != s.admissions
    ensures FrameOf(s, c).score > s.clock
    ensures forall x, t | t > s.clock :: !ShownAhead(FrameOf(s, c).snap, Entry(x, t), c)
  {
    var snap := FrameOf(s, c).snap;
    JudgeMeans(snap, s.clock, c, []);
    var k: nat :| FirstLive(snap, s.clock, c, k);
    forall x, t | t > s.clock ensures !ShownAhead(snap, Entry(x, t), c) {
      assert Entry(x, t) !in snap[..k];
    }
  }

  lemma AdmissionPassesNobody(s: State, a: Member, b: Member)
    requires EntryKept(s, a) && EntryKept(s, b) && HistoryKnown(s, a) && HistoryKnown(s, b)
    requires SortedByArrival(s, a, b) && SnapshotCurrent(s, b, a) && OnlyExpiredPassed(s, a, b)
    ensures OnlyExpiredPassed(Decided(s, b), a, b)
  {
    if FrameOf(s, b).Looking? && Decided(s, b).admissions != s.admissions {
      AdmissionMeans(s, b);
    }
  }

  lemma StepKeepsPassed(cfg: Config, s: State, act: Action, a: Member, b: Member)
    requires EntryKept(s, a) && EntryKept(s, b) && HistoryKnown(s, a) && HistoryKnown(s, b)
    requires SortedByArrival(s, a, b) && SnapshotCurrent(s, b, a) && OnlyExpiredPassed(s, a, b)
    ensures OnlyExpiredPassed(Step(cfg, s, act), a, b)
  {
    if act.Enqueue? {
      PrecedesSnoc(s.arrivals, act.c, a, b);
    } else if act == Decide(b) {
      AdmissionPassesNobody(s, a, b);
    } else {
      assert Step(cfg, s, act).arrivals == s.arrivals && (b in Step(cfg, s, act).admissions <==> b in s.admissions);
    }
  }

  ghost predicate Inv(s: State) {
    && (forall c :: EntryKept(s, c))
    && (forall c :: HistoryKnown(s, c))
    && (forall c, x :: SnapshotCurrent(s, c, x))
    && (forall c, x :: HeadOfQueue(s, c, x))
    && (forall a, b :: SortedByArrival(s, a, b))
    && (forall a, b :: OnlyExpiredPassed(s, a, b))
    && Fifo(s)
  }

  lemma StepKeepsFifo(cfg: Config, s: State, act: Action)
    requires Inv(s)
    ensures Fifo(Step(cfg, s, act))
  {
    var s' := Step(cfg, s, act);
    forall i, j | 0 <= i < j < |s'.admissions|
      ensures s'.admissions[i] != s'.admissions[j] && Precedes(s'.arrivals, s'.admissions[i], s'.admissions[j])
    {
      if j < |s.admissions| {
        assert s'.admissions[i] == s.admissions[i] && s'.admissions[j] == s.admissions[j];
        if act.Enqueue? {
          PrecedesSnoc(s.arrivals, act.c, s.admissions[i], s.admissions[j]);
        }
      } else {
        LastIn(s, act.c, s.admissions[i]);
      }
    }
  }

  /** Whoever gets in now arrived after everyone who got in before. */
  lemma LastIn(s: State, b: Member, a: Member)
    requires Inv(s) && FrameOf(s, b).Looking? && Decided(s, b).admissions != s.admissions && a in s.admissions
    ensures a != b && Precedes(s.arrivals, a, b)
  {
    assert HistoryKnown(s, a) && HistoryKnown(s, b) && EntryKept(s, b);
    AdmissionMeans(s, b);
    OneIsFirst(s.arrivals, a, b);
    assert OnlyExpiredPassed(s, b, a);
  }

  lemma StepKeepsInv(cfg: Config, s: State, act: Action)
    requires Inv(s) && ArrivesLast(s, act)
    ensures Inv(Step(cfg, s, act))
  {
    var s' := Step(cfg, s, act);
    forall c ensures EntryKept(s', c) && HistoryKnown(s', c) {
      assert EntryKept(s, c) && HistoryKnown(s, c);
      if !act.Tick? { assert EntryKept(s, act.c); }
      StepKeepsEntry(cfg, s, act, c);
      StepKeepsHistory(cfg, s, act, c);
    }
    forall c, x ensures SnapshotCurrent(s', c, x) && HeadOfQueue(s', c, x) {
      assert EntryKept(s, c) && EntryKept(s, x) && SnapshotCurrent(s, c, x) && HeadOfQueue(s, c, x);
      StepKeepsSnapshot(cfg, s, act, c, x);
      StepKeepsHead(cfg, s, act, c, x);
    }
    forall a, b ensures SortedByArrival(s', a, b) && OnlyExpiredPassed(s', a, b) {
      assert EntryKept(s, a) && EntryKept(s, b) && HistoryKnown(s, a) && HistoryKnown(s, b);
      assert SortedByArrival(s, a, b) && SnapshotCurrent(s, b, a) && OnlyExpiredPassed(s, a, b);
      StepKeepsSorted(cfg, s, act, a, b);
      StepKeepsPassed(cfg, s, act, a, b);
    }
    StepKeepsFifo(cfg, s, act);
  }

  /** The arrival-order hypothesis over a whole run. */
  ghost predicate Orderly(cfg: Config, acts: seq<Action>) {
    acts == [] ||
    (var n := |acts| - 1; Orderly(cfg, acts[..n]) && ArrivesLast(Exec(cfg, Initial, acts[..n]), acts[n]))
  }

  lemma {:induction false} RunKeepsInv(cfg: Config, acts: seq<Action>)
    requires Orderly(cfg, acts)
    ensures Inv(Exec(cfg, Initial, acts))
  {
    if acts != [] {
      var n := |acts| - 1;
      RunKeepsInv(cfg, acts[..n]);
      StepKeepsInv(cfg, Exec(cfg, Initial, acts[..n]), acts[n]);
    }
  }

  // ---------------------------------------------------------------- what the queue is for

  /** In an orderly run at most one caller is past the lock with its entry unexpired. */
  lemma MutualExclusion(cfg: Config, acts: seq<Action>, c: Member, d: Member)
    requires Orderly(cfg, acts)
    requires var s := Exec(cfg, Initial, acts);
             && Entered(FrameOf(s, c)) && FrameOf(s, c).score > s.clock
             && Entered(FrameOf(s, d)) && FrameOf(s, d).score > s.clock
    ensures c == d
  {
    RunKeepsInv(cfg, acts);
    var s := Exec(cfg, Initial, acts);
    assert EntryKept(s, c) && EntryKept(s, d);
    assert HeadOfQueue(s, c, d) && HeadOfQueue(s, d, c);
  }

  /** In an orderly run callers get in in the order of their arrivals, each at most once. */
  lemma FirstInFirstServed(cfg: Config, acts: seq<Action>, i: nat, j: nat)
    requires Orderly(cfg, acts) && i < j < |Exec(cfg, Initial, acts).admissions|
    ensures var s := Exec(cfg, Initial, acts);
            s.admissions[i] != s.admissions[j] && Precedes(s.arrivals, s.admissions[i], s.admissions[j])
  {
    RunKeepsInv(cfg, acts);
  }

  lemma {:induction false} EntriesKept(cfg: Config, acts: seq<Action>, c: Member)
    ensures EntryKept(Exec(cfg, Initial, acts), c)
  {
    if acts != [] {
      var n := |acts| - 1;
      EntriesKept(cfg, acts[..n], c);
      if !acts[n].Tick? {
        EntriesKept(cfg, acts[..n], acts[n].c);
      }
      StepKeepsEntry(cfg, Exec(cfg, Initial, acts[..n]), acts[n], c);
    }
  }

  /** In any run, orderly or not, nobody's cleanup takes away an entry before its deadline. */
  lemma CleanupSparesLiveEntries(cfg: Config, acts: seq<Action>, c: Member)
    ensures var s := Exec(cfg, Initial, acts);
            Present(FrameOf(s, c)) && s.clock < FrameOf(s, c).score
            ==> c in s.queue && s.queue[c] == FrameOf(s, c).score
  {
    EntriesKept(cfg, acts, c);
  }

  /** In any run a caller only gets in before its deadline. */
  lemma ExpiredWaiterNeverEnters(cfg: Config, acts: seq<Action>, a: Action)
    requires var s := Exec(cfg, Initial, acts); Step(cfg, s, a).admissions != s.admissions
    ensures var s := Exec(cfg, Initial, acts);
            && a.Decide? && FrameOf(s, a.c).Looking? && FrameOf(s, a.c).score > s.clock
            && Step(cfg, s, a).admissions == s.admissions + [a.c]
  {
    EntriesKept(cfg, acts, a.c);
    AdmissionMeans(Exec(cfg, Initial, acts), a.c);
  }

  // ---------------------------------------------------------------- exactly when a check succeeds

  function MembersOf(snap: seq<Entry>): set<Member> {
    set i | 0 <= i < |snap| :: snap[i].member
  }

  lemma {:induction false} MembersCounted(snap: seq<Entry>)
    requires forall i, j | 0 <= i < j < |snap| :: snap[i].member != snap[j].member
    ensures |MembersOf(snap)| == |snap|
  {
    if snap != [] {
      var n := |snap| - 1;
      MembersCounted(snap[..n]);
      assert MembersOf(snap) == MembersOf(snap[..n]) + {snap[n].member};
    }
  }

  /** Whoever comes before c in a snapshot sorts before c. */
  lemma ShownBefore(z: ZSet, c: Member, count: nat, k: nat, x: Member)
    requires c in z && k < |ZRange(z, z[c], count)| && ZRange(z, z[c], count)[k].member == c
    ensures x in MembersOf(ZRange(z, z[c], count)[..k]) <==> x in Ahead(z, c)
  {
    var snap := ZRange(z, z[c], count);
    if x in Ahead(z, c) {
      SnapshotShowsAhead(z, z[c], count, c, x);
      var i :| 0 <= i < k && snap[..k][i] == Entry(x, z[x]);
    }
  }

  /** Where the snapshot reaches c, exactly the members that sort before c come first. */
  lemma SnapshotReaches(z: ZSet, c: Member, count: nat, k: nat)
    requires c in z && k < |ZRange(z, z[c], count)| && ZRange(z, z[c], count)[k].member == c
    ensures MembersOf(ZRange(z, z[c], count)[..k]) == Ahead(z, c)
    ensures k == |Ahead(z, c)|
  {
    var before := ZRange(z, z[c], count)[..k];
    forall x ensures x in MembersOf(before) <==> x in Ahead(z, c) {
      ShownBefore(z, c, count, k, x);
    }
    MembersCounted(before);
  }

  /** If the snapshot does not reach c, it is full of members that sort before c. */
  lemma SnapshotFallsShort(z: ZSet, c: Member, count: nat)
    requires c in z && c !in MembersOf(ZRange(z, z[c], count))
    ensures |Ahead(z, c)| >= count
  {
    var snap := ZRange(z, z[c], count);
    assert MembersOf(snap) <= Ahead(z, c);
    MembersCounted(snap);
    assert Ahead(z, c) == MembersOf(snap) + (Ahead(z, c) - MembersOf(snap));
  }

  /** The entry is stored and live, all ahead of it have expired, and they are fewer than the snapshot. */
  predicate MayEnter(z: ZSet, now: int, c: Member) {
    c in z && z[c] > now && |Ahead(z, c)| < 20 && forall x | x in Ahead(z, c) :: z[x] <= now
  }

  lemma FirstLiveMayEnter(z: ZSet, hi: int, now: int, c: Member, k: nat)
    requires c in z ==> z[c] == hi
    requires FirstLive(ZRange(z, hi, SNAPSHOT), now, c, k)
    ensures MayEnter(z, now, c)
  {
    var snap := ZRange(z, hi, SNAPSHOT);
    SnapshotReaches(z, c, SNAPSHOT, k);
    forall x | x in Ahead(z, c) ensures z[x] <= now {
      assert x in MembersOf(snap[..k]);
      var i :| 0 <= i < k && snap[..k][i].member == x;
      assert snap[i].score <= now;
    }
  }

  lemma MayEnterIsFirstLive(z: ZSet, now: int, c: Member) returns (k: nat)
    requires MayEnter(z, now, c)
    ensures FirstLive(ZRange(z, z[c], SNAPSHOT), now, c, k)
  {
    var snap := ZRange(z, z[c], SNAPSHOT);
    if c !in MembersOf(snap) {
      SnapshotFallsShort(z, c, SNAPSHOT);
      assert false;
    }
    k :| 0 <= k < |snap| && snap[k].member == c;
    forall j | 0 <= j < k ensures snap[j].score <= now {
      assert snap[j].member in Ahead(z, c);
    }
  }

  lemma FirstLiveIff(z: ZSet, hi: int, snap: seq<Entry>, now: int, c: Member)
    requires (c in z ==> z[c] == hi) && snap == ZRange(z, hi, SNAPSHOT)
    ensures (exists k :: FirstLive(snap, now, c, k)) <==> MayEnter(z, now, c)
  {
    if k: nat :| FirstLive(snap, now, c, k) {
      FirstLiveMayEnter(z, hi, now, c, k);
    }
    if MayEnter(z, now, c) {
      var k := MayEnterIsFirstLive(z, now, c);
      assert FirstLive(snap, now, c, k);
    }
  }

  lemma JudgedOn(cfg: Config, s: State, c: Member, snap: seq<Entry>)
    requires FrameOf(s, c).Waiting? && FrameOf(s, c).attempt < cfg.maxAttempts
    requires snap == ZRange(s.queue, FrameOf(s, c).score, SNAPSHOT)
    ensures Entered(FrameOf(Decided(Looked(cfg, s, c), c), c)) <==> Judge(snap, s.clock, c, []).Admitted?
  {
  }

  /**
   * Uninterrupted, a check succeeds exactly when the own entry is there and live, every entry
   * ahead has expired, and fewer than 20 of them are still stored.
   */
  lemma CheckSucceedsIff(cfg: Config, s: State, c: Member)
    requires EntryKept(s, c) && FrameOf(s, c).Waiting? && FrameOf(s, c).attempt < cfg.maxAttempts
    ensures Entered(FrameOf(Decided(Looked(cfg, s, c), c), c)) <==> MayEnter(s.queue, s.clock, c)
  {
    var snap := ZRange(s.queue, FrameOf(s, c).score, SNAPSHOT);
    JudgedOn(cfg, s, c, snap);
    FirstLiveIff(s.queue, FrameOf(s, c).score, snap, s.clock, c);
    JudgeMeans(snap, s.clock, c, []);
  }

  // ---------------------------------------------------------------- what an admission cleans up

  /** Nothing that the snapshot showed ahead of the admitted caller stays, unless its score is negative. */
  predicate ShownAheadIsGone(z: ZSet, snap: seq<Entry>, k: nat)
    requires k <= |snap|
  {
    forall x, j | x in z && 0 <= j < k :: z[x] < 0 || z[x] > snap[j].score
  }

  lemma LargestAhead(snap: seq<Entry>, k: nat)
    requires k <= |snap|
    ensures var m := MaxOf(Scores(snap[..k]));
            && (m == None <==> k == 0)
            && (forall j | 0 <= j < k :: m != None && snap[j].score <= m.value)
            && (m != None ==> exists j :: 0 <= j < k && snap[j].score == m.value)
  {
    var xs := Scores(snap[..k]);
    forall j | 0 <= j < k ensures snap[j].score in xs {
      assert xs[j] == snap[j].score;
    }
    if MaxOf(xs) != None {
      var j :| 0 <= j < k && xs[j] == MaxOf(xs).value;
      assert snap[j].score == MaxOf(xs).value;
    }
  }

  /** Whatever happened between the decision of state s and the cleanup in state t. */
  lemma CleanupDropsWhatWasShown(s: State, t: State, c: Member, k: nat)
    requires FrameOf(s, c).Looking? && FirstLive(FrameOf(s, c).snap, s.clock, c, k)
    requires FrameOf(t, c) == FrameOf(Decided(s, c), c)
    ensures ShownAheadIsGone(CleanedUp(t, c).queue, FrameOf(s, c).snap, k)
  {
    var snap := FrameOf(s, c).snap;
    JudgedAlone(snap, s.clock, c);
    LargestAhead(snap, k);
    assert FrameOf(t, c) == Cleaning(FrameOf(s, c).score, MaxOf(Scores(snap[..k])));
  }

  /** The state in which caller c is inside, and nothing but the queue and the admissions has moved. */
  predicate GotIn(s: State, t: State, c: Member) {
    && FrameOf(s, c).Waiting? && t.frames == s.frames[c := Inside(FrameOf(s, c).score)]
    && t.admissions == s.admissions + [c] && t.arrivals == s.arrivals && t.clock == s.clock
  }

  /** An uninterrupted successful check takes away every entry ahead whose score is not negative, and no other. */
  lemma AdmissionClears(cfg: Config, s: State, c: Member)
    requires EntryKept(s, c) && FrameOf(s, c).Waiting? && FrameOf(s, c).attempt < cfg.maxAttempts
    requires MayEnter(s.queue, s.clock, c)
    ensures var t := CleanedUp(Decided(Looked(cfg, s, c), c), c);
            && GotIn(s, t, c)
            && t.queue == map x | x in s.queue && !(x in Ahead(s.queue, c) && s.queue[x] >= 0) :: s.queue[x]
  {
    var z, snap := s.queue, ZRange(s.queue, s.queue[c], SNAPSHOT);
    var k := MayEnterIsFirstLive(z, s.clock, c);
    JudgedAlone(snap, s.clock, c);
    var upto := MaxOf(Scores(snap[..k]));
    CheckedAndCleaned(cfg, s, c, snap, upto);
    CleanedUpTo(z, s.clock, c, k);
  }

  lemma CheckedAndCleaned(cfg: Config, s: State, c: Member, snap: seq<Entry>, upto: Option<int>)
    requires FrameOf(s, c).Waiting? && FrameOf(s, c).attempt < cfg.maxAttempts
    requires snap == ZRange(s.queue, FrameOf(s, c).score, SNAPSHOT) && Judge(snap, s.clock, c, []) == Admitted(upto)
    ensures var t := CleanedUp(Decided(Looked(cfg, s, c), c), c);
            && GotIn(s, t, c)
            && t.queue == if upto == None then s.queue else ZRemRangeByScore(s.queue, Some(0), upto.value)
  {
    LookedAt(cfg, s, c, snap);
    DecidedOn(Looked(cfg, s, c), c, snap, upto);
    CleanedFrom(Decided(Looked(cfg, s, c), c), c, FrameOf(s, c).score, upto);
  }

  lemma LookedAt(cfg: Config, s: State, c: Member, snap: seq<Entry>)
    requires FrameOf(s, c).Waiting? && FrameOf(s, c).attempt < cfg.maxAttempts
    requires snap == ZRange(s.queue, FrameOf(s, c).score, SNAPSHOT)
    ensures Looked(cfg, s, c) == Goto(s, c, Looking(FrameOf(s, c).score, FrameOf(s, c).attempt, snap))
  {
  }

  lemma DecidedOn(s: State, c: Member, snap: seq<Entry>, upto: Option<int>)
    requires FrameOf(s, c).Looking? && FrameOf(s, c).snap == snap && Judge(snap, s.clock, c, []) == Admitted(upto)
    ensures Decided(s, c) == Goto(s, c, Cleaning(FrameOf(s, c).score, upto)).(admissions := s.admissions + [c])
    ensures FrameOf(Decided(s, c), c) == Cleaning(FrameOf(s, c).score, upto)
  {
  }

  lemma CleanedFrom(s: State, c: Member, score: int, upto: Option<int>)
    requires FrameOf(s, c) == Cleaning(score, upto)
    ensures var t := CleanedUp(s, c);
            && t == Goto(s, c, Inside(score)).(queue := t.queue)
            && t.queue == if upto == None then s.queue else ZRemRangeByScore(s.queue, Some(0), upto.value)
  {
  }

  lemma CleanedUpTo(z: ZSet, now: int, c: Member, k: nat)
    requires c in z && FirstLive(ZRange(z, z[c], SNAPSHOT), now, c, k)
    ensures var upto := MaxOf(Scores(ZRange(z, z[c], SNAPSHOT)[..k]));
            (if upto == None then z else ZRemRangeByScore(z, Some(0), upto.value))
            == map x | x in z && !(x in Ahead(z, c) && z[x] >= 0) :: z[x]
  {
    forall x | x in z
      ensures var upto := MaxOf(Scores(ZRange(z, z[c], SNAPSHOT)[..k]));
              x in Ahead(z, c) <==> upto != None && z[x] <= upto.value
    {
      AheadIsUpTo(z, now, c, k, x);
    }
  }

  /** The members ahead of the admitted caller are those up to the largest score shown ahead of it. */
  lemma AheadIsUpTo(z: ZSet, now: int, c: Member, k: nat, x: Member)
    requires c in z && FirstLive(ZRange(z, z[c], SNAPSHOT), now, c, k) && x in z
    ensures var upto := MaxOf(Scores(ZRange(z, z[c], SNAPSHOT)[..k]));
            x in Ahead(z, c) <==> upto != None && z[x] <= upto.value
  {
    var snap := ZRange(z, z[c], SNAPSHOT);
    LargestAhead(snap, k);
    if x in Ahead(z, c) {
      SnapshotReaches(z, c, SNAPSHOT, k);
      assert x in MembersOf(snap[..k]);
      var j :| 0 <= j < k && snap[..k][j].member == x;
      assert snap[j].score == z[x];
    } else if k > 0 {
      var j :| 0 <= j < k && snap[j].score == MaxOf(Scores(snap[..k])).value;
      assert snap[j].score <= now < z[c];
    }
  }

  lemma {:induction false} ScoresAreDeadlines(cfg: Config, acts: seq<Action>, c: Member)
    requires cfg.maxDuration >= 0
    ensures var s := Exec(cfg, Initial, acts);
            s.clock >= 0 && (FrameOf(s, c).Arriving? || Present(FrameOf(s, c)) ==> FrameOf(s, c).score >= 0)
  {
    if acts != [] {
      var n := |acts| - 1;
      ScoresAreDeadlines(cfg, acts[..n], c);
      if !acts[n].Tick? {
        ScoresAreDeadlines(cfg, acts[..n], acts[n].c);
      }
    }
  }

  /**
   * In any run, once an uninterrupted check has succeeded and cleaned up, nothing is ahead of the
   * caller; its own entry is in, and so is every entry that is live.
   */
  lemma CheckClearsTheWay(cfg: Config, acts: seq<Action>, c: Member)
    requires cfg.maxDuration >= 0
    requires var s := Exec(cfg, Initial, acts);
             && FrameOf(s, c).Waiting? && FrameOf(s, c).attempt < cfg.maxAttempts && MayEnter(s.queue, s.clock, c)
    ensures var s, t := Exec(cfg, Initial, acts), Exec(cfg, Initial, acts + [Look(c)] + [Decide(c)] + [CleanUp(c)]);
            && GotIn(s, t, c) && c in t.queue && Ahead(t.queue, c) == {}
            && t.queue.Keys == s.queue.Keys - Ahead(s.queue, c)
            && (forall x | x in t.queue :: t.queue[x] == s.queue[x])
            && (forall x | x in s.queue && s.queue[x] > s.clock :: x in t.queue)
  {
    EntriesKept(cfg, acts, c);
    StoredScores(cfg, acts);
    ClearsTheWay(cfg, Exec(cfg, Initial, acts), c);
    WholeCheck(cfg, acts, c);
  }

  lemma WholeCheck(cfg: Config, acts: seq<Action>, c: Member)
    ensures Exec(cfg, Initial, acts + [Look(c)] + [Decide(c)] + [CleanUp(c)])
         == CleanedUp(Decided(Looked(cfg, Exec(cfg, Initial, acts), c), c), c)
  {
    ThreeMore(cfg, acts, Look(c), Decide(c), CleanUp(c));
  }

  lemma ClearsTheWay(cfg: Config, s: State, c: Member)
    requires EntryKept(s, c) && FrameOf(s, c).Waiting? && FrameOf(s, c).attempt < cfg.maxAttempts
    requires MayEnter(s.queue, s.clock, c) && forall x | x in s.queue :: s.queue[x] >= 0
    ensures var t := CleanedUp(Decided(Looked(cfg, s, c), c), c);
            && GotIn(s, t, c) && c in t.queue && Ahead(t.queue, c) == {}
            && t.queue.Keys == s.queue.Keys - Ahead(s.queue, c)
            && (forall x | x in t.queue :: t.queue[x] == s.queue[x])
            && (forall x | x in s.queue && s.queue[x] > s.clock :: x in t.queue)
  {
    AdmissionClears(cfg, s, c);
    NothingAhead(s.queue, CleanedUp(Decided(Looked(cfg, s, c), c), c).queue, c);
  }

  lemma NothingAhead(z: ZSet, y: ZSet, c: Member)
    requires c in z && forall x | x in z :: z[x] >= 0
    requires y == map x | x in z && !(x in Ahead(z, c) && z[x] >= 0) :: z[x]
    ensures c in y && y[c] == z[c] && Ahead(y, c) == {} && y.Keys == z.Keys - Ahead(z, c)
  {
  }

  lemma StoredScores(cfg: Config, acts: seq<Action>)
    requires cfg.maxDuration >= 0
    ensures var z := Exec(cfg, Initial, acts).queue; forall x | x in z :: z[x] >= 0
  {
    var s := Exec(cfg, Initial, acts);
    forall x | x in s.queue ensures s.queue[x] >= 0 {
      EntriesKept(cfg, acts, x);
      ScoresAreDeadlines(cfg, acts, x);
    }
  }

  // ---------------------------------------------------------------- giving up and leaving

  /** A caller's checks so far: the steps that judged a snapshot of its. */
  ghost function Checks(cfg: Config, acts: seq<Action>, c: Member): nat {
    if acts == [] then 0
    else
      var n := |acts| - 1;
      var judged := acts[n] == Decide(c) && FrameOf(Exec(cfg, Initial, acts[..n]), c).Looking?;
      Checks(cfg, acts[..n], c) + if judged then 1 else 0
  }

  lemma OneMoreCheck(cfg: Config, s: State, a: Action, c: Member)
    ensures var f, g := FrameOf(s, c), FrameOf(Step(cfg, s, a), c);
            && (g.Away? || g.Arriving? ==> f.Away? || f.Arriving?)
            && (g.Looking? ==> (f.Looking? || f.Waiting?) && g.attempt == f.attempt
                               && (f.Looking? || g.attempt < cfg.maxAttempts))
            && (g.Waiting? ==> (f.Arriving? && g.attempt == 0) || (f.Waiting? && g.attempt == f.attempt)
                               || (f.Looking? && a == Decide(c) && g.attempt == f.attempt + 1))
            && (f.Looking? && a == Decide(c) ==> !g.Looking?)
  {
  }

  /** In any run the attempts count the checks that were made, and none is made after the last attempt. */
  lemma {:induction false} AttemptsAreChecks(cfg: Config, acts: seq<Action>, c: Member)
    ensures var f := FrameOf(Exec(cfg, Initial, acts), c);
            && Checks(cfg, acts, c) <= cfg.maxAttempts
            && (f.Away? || f.Arriving? ==> Checks(cfg, acts, c) == 0)
            && (Undecided(f) ==> f.attempt == Checks(cfg, acts, c))
            && (f.Looking? ==> f.attempt < cfg.maxAttempts)
  {
    if acts != [] {
      var n := |acts| - 1;
      AttemptsAreChecks(cfg, acts[..n], c);
      OneMoreCheck(cfg, Exec(cfg, Initial, acts[..n]), acts[n], c);
    }
  }

  /** A caller that leaves without having been admitted has made all its checks. */
  lemma {:induction false} GivesUpAfterAllChecks(cfg: Config, acts: seq<Action>, c: Member)
    ensures var s := Exec(cfg, Initial, acts);
            (FrameOf(s, c).Leaving? || FrameOf(s, c).Done?) && c !in s.admissions
            ==> Checks(cfg, acts, c) == cfg.maxAttempts
  {
    if acts != [] {
      var n := |acts| - 1;
      GivesUpAfterAllChecks(cfg, acts[..n], c);
      AttemptsAreChecks(cfg, acts[..n], c);
      HistoriesKnown(cfg, acts[..n], c);
    }
  }

  lemma {:induction false} HistoriesKnown(cfg: Config, acts: seq<Action>, c: Member)
    ensures HistoryKnown(Exec(cfg, Initial, acts), c)
  {
    if acts != [] {
      HistoriesKnown(cfg, acts[..|acts| - 1], c);
      StepKeepsHistory(cfg, Exec(cfg, Initial, acts[..|acts| - 1]), acts[|acts| - 1], c);
    }
  }

  /** In any run the queue only holds entries of callers between adding and removing them. */
  lemma NobodyLeavesAnEntry(cfg: Config, acts: seq<Action>, c: Member)
    ensures var s := Exec(cfg, Initial, acts);
            FrameOf(s, c).Away? || FrameOf(s, c).Arriving? || FrameOf(s, c).Done? ==> c !in s.queue
  {
    EntriesKept(cfg, acts, c);
  }

  /** The decorated function is over, or the attempts are. */
  predicate ReadyToLeave(cfg: Config, f: Frame) {
    f.Inside? || (f.Waiting? && f.attempt >= cfg.maxAttempts)
  }

  /** Either way the caller goes through the finally block, which takes its entry and nothing else out of the queue. */
  lemma LeavingTakesOwnEntry(cfg: Config, acts: seq<Action>, c: Member)
    requires ReadyToLeave(cfg, FrameOf(Exec(cfg, Initial, acts), c))
    ensures var s := Exec(cfg, Initial, acts);
            var leave := if FrameOf(s, c).Inside? then Leave(c) else GiveUp(c);
            var t := Exec(cfg, Initial, acts + [leave] + [Remove(c)]);
            && t.frames == s.frames[c := Done] && t.queue == s.queue - {c}
            && t.clock == s.clock && t.arrivals == s.arrivals && t.admissions == s.admissions
  {
    TwoMore(cfg, acts, if FrameOf(Exec(cfg, Initial, acts), c).Inside? then Leave(c) else GiveUp(c), Remove(c));
  }

  // ---------------------------------------------------------------- why arrivals must be in order

  lemma {:induction false} ExecConcat(cfg: Config, s: State, xs: seq<Action>, ys: seq<Action>)
    ensures Exec(cfg, s, xs + ys) == Exec(cfg, Exec(cfg, s, xs), ys)
  {
    if ys == [] {
      assert xs + ys == xs;
    } else {
      var n := |ys| - 1;
      assert (xs + ys)[..|xs + ys| - 1] == xs + ys[..n];
      ExecConcat(cfg, s, xs, ys[..n]);
    }
  }

  lemma ExecTwo(cfg: Config, s: State, a: Action, b: Action)
    ensures Exec(cfg, s, [a, b]) == Step(cfg, Step(cfg, s, a), b)
  {
    assert [a, b][..1] == [a] && [a][..0] == [];
    assert Exec(cfg, s, []) == s;
    assert Exec(cfg, s, [a]) == Step(cfg, s, a);
  }

  /** Look, decide and clean up with nothing ahead. */
  lemma LoneCheck(cfg: Config, s: State, c: Member)
    requires FrameOf(s, c).Waiting? && FrameOf(s, c).attempt < cfg.maxAttempts
    requires c in s.queue && s.queue[c] == FrameOf(s, c).score > s.clock && Ahead(s.queue, c) == {}
    ensures CleanedUp(Decided(Looked(cfg, s, c), c), c)
         == Goto(s, c, Inside(FrameOf(s, c).score)).(admissions := s.admissions + [c])
  {
    var snap := ZRange(s.queue, s.queue[c], SNAPSHOT);
    var i := MayEnterIsFirstLive(s.queue, s.clock, c);
    SnapshotReaches(s.queue, c, SNAPSHOT, i);
    assert Judge(snap, s.clock, c, []) == Admitted(None);
  }

  lemma LoneEntry(cfg: Config, s: State, c: Member)
    requires FrameOf(s, c).Arriving? && cfg.maxAttempts > 0 && FrameOf(s, c).score > s.clock
    requires Ahead(ZAdd(s.queue, c, FrameOf(s, c).score), c) == {}
    ensures Exec(cfg, s, [Enqueue(c), Look(c)] + [Decide(c), CleanUp(c)])
         == Goto(Enqueued(s, c), c, Inside(FrameOf(s, c).score)).(admissions := s.admissions + [c])
  {
    FourSteps(cfg, s, Enqueue(c), Look(c), Decide(c), CleanUp(c));
    LoneCheck(cfg, Enqueued(s, c), c);
  }

  lemma FourSteps(cfg: Config, s: State, a: Action, b: Action, c: Action, d: Action)
    ensures Exec(cfg, s, [a, b] + [c, d]) == Step(cfg, Step(cfg, Step(cfg, Step(cfg, s, a), b), c), d)
  {
    ExecTwo(cfg, s, a, b);
    ExecConcat(cfg, s, [a, b], [c, d]);
    ExecTwo(cfg, Exec(cfg, s, [a, b]), c, d);
  }

  /** Two callers read the clock in turn, but the earlier deadline is stored second. */
  const LateEntry: seq<Action> :=
    ([Arrive(1), Tick(1)] + [Arrive(2)]) + ([Enqueue(2), Look(2)] + [Decide(2), CleanUp(2)])
    + ([Enqueue(1), Look(1)] + [Decide(1), CleanUp(1)])

  /** Without the arrival order both get in, neither of them expired. */
  lemma LateEntryBreaksExclusion(cfg: Config)
    requires cfg.maxDuration > 1 && cfg.maxAttempts > 0
    ensures var s := Exec(cfg, Initial, LateEntry);
            && FrameOf(s, 1) == Inside(cfg.maxDuration) && FrameOf(s, 2) == Inside(cfg.maxDuration + 1)
            && s.clock < cfg.maxDuration
  {
    var d := cfg.maxDuration;
    var s := State(1, map[], map[1 := Arriving(d), 2 := Arriving(d + 1)], [], []);
    var lead, second, first := [Arrive(1), Tick(1)] + [Arrive(2)], [Enqueue(2), Look(2)] + [Decide(2), CleanUp(2)],
        [Enqueue(1), Look(1)] + [Decide(1), CleanUp(1)];
    assert Exec(cfg, Initial, lead) == s by {
      ExecConcat(cfg, Initial, [Arrive(1), Tick(1)], [Arrive(2)]);
      ExecTwo(cfg, Initial, Arrive(1), Tick(1));
      assert [Arrive(2)][..0] == [];
    }
    ExecConcat(cfg, Initial, lead + second, first);
    ExecConcat(cfg, Initial, lead, second);
    LoneEntry(cfg, s, 2);
    var t := Exec(cfg, s, second);
    assert Ahead(ZAdd(t.queue, 1, d), 1) == {};
    LoneEntry(cfg, t, 1);
  }

  // ---------------------------------------------------------------- the cap on the snapshot

  /** Callers 1..n arrive, and all their deadlines pass. */
  function Arrivals(n: nat): seq<Action> {
    if n == 0 then [] else Arrivals(n - 1) + [Arrive(n)] + [Enqueue(n)]
  }

  /** Caller c's place after that, the clock still standing. */
  ghost predicate ArrivedUpTo(cfg: Config, s: State, n: nat, c: Member) {
    && FrameOf(s, c) == (if 1 <= c <= n then Waiting(cfg.maxDuration, 0) else Away)
    && (c in s.queue <==> 1 <= c <= n) && (c in s.queue ==> s.queue[c] == cfg.maxDuration)
  }

  lemma {:induction false} ArrivalsQueue(cfg: Config, n: nat)
    ensures var s := Exec(cfg, Initial, Arrivals(n)); s.clock == 0 && forall c :: ArrivedUpTo(cfg, s, n, c)
  {
    if n > 0 {
      var prior := Arrivals(n - 1);
      var s := Exec(cfg, Initial, prior);
      ArrivalsQueue(cfg, n - 1);
      ExecSnoc(cfg, Initial, prior, Arrive(n));
      ExecSnoc(cfg, Initial, prior + [Arrive(n)], Enqueue(n));
      assert ArrivedUpTo(cfg, s, n - 1, n);
      forall c ensures ArrivedUpTo(cfg, Exec(cfg, Initial, Arrivals(n)), n, c) {
        assert ArrivedUpTo(cfg, s, n - 1, c);
      }
    }
  }

  /** Then their deadlines pass, and caller n + 1 arrives. */
  function FullQueue(cfg: Config, n: nat): seq<Action>
    requires cfg.maxDuration >= 0
  {
    Arrivals(n) + [Tick(cfg.maxDuration)] + [Arrive(n + 1)] + [Enqueue(n + 1)]
  }

  /** The newcomer, whose deadline is later, finds exactly the others ahead. */
  lemma NewcomerIsLast(z: ZSet, n: nat, early: int, late: int)
    requires early < late && z.Keys == FirstIds(n) && forall x | x in z :: z[x] == early
    ensures Ahead(ZAdd(z, n + 1, late), n + 1) == FirstIds(n)
    ensures forall x | x in FirstIds(n) :: x in ZAdd(z, n + 1, late) && ZAdd(z, n + 1, late)[x] == early
  {
    forall x ensures x in Ahead(ZAdd(z, n + 1, late), n + 1) <==> x in FirstIds(n) {
    }
  }

  lemma NewcomerFindsAll(cfg: Config, s: State, n: nat)
    requires cfg.maxDuration > 0 && s.clock == 0 && FrameOf(s, n + 1).Away?
    requires s.queue.Keys == FirstIds(n) && forall x | x in s.queue :: s.queue[x] == cfg.maxDuration
    ensures var t := Step(cfg, Step(cfg, Step(cfg, s, Tick(cfg.maxDuration)), Arrive(n + 1)), Enqueue(n + 1));
            && t.clock == cfg.maxDuration && FrameOf(t, n + 1) == Waiting(2 * cfg.maxDuration, 0)
            && n + 1 in t.queue && t.queue[n + 1] == 2 * cfg.maxDuration
            && Ahead(t.queue, n + 1) == FirstIds(n)
            && forall x | x in FirstIds(n) :: x in t.queue && t.queue[x] == cfg.maxDuration
  {
    NewcomerQueues(cfg, s, n);
    NewcomerIsLast(s.queue, n, cfg.maxDuration, 2 * cfg.maxDuration);
  }

  lemma NewcomerQueues(cfg: Config, s: State, n: nat)
    requires cfg.maxDuration > 0 && s.clock == 0 && FrameOf(s, n + 1).Away?
    ensures var t := Enqueued(Step(cfg, Step(cfg, s, Tick(cfg.maxDuration)), Arrive(n + 1)), n + 1);
            && t.clock == cfg.maxDuration && FrameOf(t, n + 1) == Waiting(2 * cfg.maxDuration, 0)
            && t.queue == ZAdd(s.queue, n + 1, 2 * cfg.maxDuration)
  {
  }

  lemma ArrivalsAreFirst(cfg: Config, s: State, n: nat)
    requires forall c :: ArrivedUpTo(cfg, s, n, c)
    ensures s.queue.Keys == FirstIds(n) && (forall x | x in s.queue :: s.queue[x] == cfg.maxDuration)
    ensures FrameOf(s, n + 1).Away?
  {
    forall x ensures (x in s.queue <==> x in FirstIds(n)) && (x in s.queue ==> s.queue[x] == cfg.maxDuration) {
      assert ArrivedUpTo(cfg, s, n, x);
    }
    assert ArrivedUpTo(cfg, s, n, n + 1);
  }

  /** From any run to the state after three more actions. */
  lemma ThreeMore(cfg: Config, acts: seq<Action>, a: Action, b: Action, c: Action)
    ensures Exec(cfg, Initial, acts + [a] + [b] + [c])
         == Step(cfg, Step(cfg, Step(cfg, Exec(cfg, Initial, acts), a), b), c)
  {
    ExecSnoc(cfg, Initial, acts, a);
    TwoMore(cfg, acts + [a], b, c);
  }

  lemma QueueFilled(cfg: Config, n: nat)
    requires cfg.maxDuration > 0
    ensures var s := Exec(cfg, Initial, FullQueue(cfg, n));
            && s.clock == cfg.maxDuration && FrameOf(s, n + 1) == Waiting(2 * cfg.maxDuration, 0)
            && n + 1 in s.queue && s.queue[n + 1] == 2 * cfg.maxDuration
            && Ahead(s.queue, n + 1) == FirstIds(n)
            && forall x | x in FirstIds(n) :: x in s.queue && s.queue[x] == cfg.maxDuration
  {
    ArrivalsQueue(cfg, n);
    ArrivalsAreFirst(cfg, Exec(cfg, Initial, Arrivals(n)), n);
    NewcomerFindsAll(cfg, Exec(cfg, Initial, Arrivals(n)), n);
    ThreeMore(cfg, Arrivals(n), Tick(cfg.maxDuration), Arrive(n + 1), Enqueue(n + 1));
  }

  /** A check that may not succeed only uses up an attempt. */
  lemma CheckFails(cfg: Config, s: State, c: Member)
    requires EntryKept(s, c) && FrameOf(s, c).Waiting? && FrameOf(s, c).attempt < cfg.maxAttempts
    requires !MayEnter(s.queue, s.clock, c)
    ensures FrameOf(Step(cfg, Step(cfg, s, Look(c)), Decide(c)), c)
         == Waiting(FrameOf(s, c).score, FrameOf(s, c).attempt + 1)
  {
    CheckSucceedsIff(cfg, s, c);
  }

  /** With 20 or more expired entries ahead, a caller with a live entry and nobody live ahead is turned down. */
  lemma FullSnapshotTurnsDown(cfg: Config, n: nat)
    requires n >= 20 && cfg.maxDuration > 0 && cfg.maxAttempts > 0
    ensures var s := Exec(cfg, Initial, FullQueue(cfg, n));
            && n + 1 in s.queue && s.queue[n + 1] > s.clock && Ahead(s.queue, n + 1) == FirstIds(n)
            && forall x | x in FirstIds(n) :: s.queue[x] <= s.clock
    ensures FrameOf(Exec(cfg, Initial, FullQueue(cfg, n) + [Look(n + 1)] + [Decide(n + 1)]), n + 1)
         == Waiting(2 * cfg.maxDuration, 1)
  {
    var s := Exec(cfg, Initial, FullQueue(cfg, n));
    QueueFilled(cfg, n);
    EntriesKept(cfg, FullQueue(cfg, n), n + 1);
    CheckFails(cfg, s, n + 1);
    TwoMore(cfg, FullQueue(cfg, n), Look(n + 1), Decide(n + 1));
  }

  lemma TwoMore(cfg: Config, acts: seq<Action>, a: Action, b: Action)
    ensures Exec(cfg, Initial, acts + [a] + [b]) == Step(cfg, Step(cfg, Exec(cfg, Initial, acts), a), b)
  {
    ExecSnoc(cfg, Initial, acts, a);
    ExecSnoc(cfg, Initial, acts + [a], b);
  }

  lemma ExecSnoc(cfg: Config, s: State, acts: seq<Action>, a: Action)
    ensures Exec(cfg, s, acts + [a]) == Step(cfg, Exec(cfg, s, acts), a)
  {
    assert (acts + [a])[..|acts|] == acts;
  }
}
