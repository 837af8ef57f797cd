/**
 * The counter-ticket semaphore as a transition system over all its callers.
 *
 * Every client command is its own step, so the bulkhead's MULTI batch is the run Prune, Intersect,
 * Draw with nothing in between, and the limiter's pipelined commands may be torn apart.  A step
 * whose caller is not at the right place does nothing, so executing every action sequence covers
 * every interleaving.  Prune, Intersect and Burn are open to callers at any place: that covers a
 * pipeline that sends the commands of its earlier batches once more, as does the detour of a
 * refused caller through Readding.
 */
module Semaphore {
  import opened SortedSets

  /** At most `limit` permits; entries older than `lease` are pruned. */
  datatype Config = Config(limit: int, lease: int)

  /** Where one caller is, with its locals: the clock it read and the ticket it drew. */
  datatype Frame =
    | Idle
    | Stamped(stamp: int)
    | Ticketed(stamp: int, ticket: nat)
    | StampAdded(stamp: int, ticket: nat)
    | Inserted(stamp: int, ticket: nat)
    | Holding(stamp: int, ticket: nat)
    | Refused(stamp: int, ticket: nat)
    | Readding(stamp: int, ticket: nat)
    | Removing(stamp: int, ticket: nat)

  /** Recorded when a permit is granted: who ranked ahead, and who held a smaller ticket uninserted. */
  datatype Grant = Grant(ahead: set<Member>, behind: set<Member>)

  datatype State = State(
    clock: int,
    stamps: ZSet,
    owners: ZSet,
    counter: nat,
    frames: map<Member, Frame>,
    grants: map<Member, Grant>)

  datatype Action =
    | Tick(d: nat)
    | Stamp(c: Member)      // read Date.now()
    | Prune(c: Member)      // ZREMRANGEBYSCORE with the caller's stamp
    | Intersect             // ZINTERSTORE of owners with stamps
    | Burn                  // an INCR whose reply is discarded
    | Draw(c: Member)       // an INCR whose reply is the ticket
    | AddStamp(c: Member)
    | AddOwner(c: Member)
    | ReadRank(c: Member)
    | RemStamp(c: Member)   // first command of a refusal or of a release
    | RemOwner(c: Member)

  const Initial := State(0, map[], map[], 0, map[], map[])

  function FrameOf(s: State, c: Member): Frame {
    if c in s.frames then s.frames[c] else Idle
  }

  function Goto(s: State, c: Member, f: Frame): State {
    s.(frames := s.frames[c := f])
  }

  /** ZREMRANGEBYSCORE key -inf stamp-lease. */
  function Pruned(cfg: Config, s: State, c: Member): State {
    if FrameOf(s, c).Idle? then
      s
    else
      s.(stamps := ZRemRangeByScore(s.stamps, None, FrameOf(s, c).stamp - cfg.lease))
  }

  /** ZINTERSTORE owners <- owners, stamps WEIGHTS 1 0. */
  function Intersected(s: State): State {
    s.(owners := ZInterStore(s.owners, s.stamps, 1, 0))
  }

  /** INCR, its reply becoming the caller's ticket. */
  function Drawn(s: State, c: Member): State {
    if FrameOf(s, c).Stamped? then
      Goto(s, c, Ticketed(FrameOf(s, c).stamp, s.counter + 1)).(counter := s.counter + 1)
    else
      s
  }

  function StampInserted(s: State, c: Member): State {
    match FrameOf(s, c)
    case Ticketed(at, t) => Goto(s, c, StampAdded(at, t)).(stamps := ZAdd(s.stamps, c, at))
    case Refused(at, t) => Goto(s, c, Readding(at, t)).(stamps := ZAdd(s.stamps, c, at))
    case _ => s
  }

  function OwnerInserted(s: State, c: Member): State {
    match FrameOf(s, c)
    case StampAdded(at, t) => Goto(s, c, Inserted(at, t)).(owners := ZAdd(s.owners, c, t))
    case Readding(at, t) => Goto(s, c, Refused(at, t)).(owners := ZAdd(s.owners, c, t))
    case _ => s
  }

  /** Callers that hold a smaller ticket and have not inserted it yet. */
  function Uninserted(s: State, ticket: nat): set<Member> {
    set c | c in s.frames && Arriving(s.frames[c]) && s.frames[c].ticket < ticket
  }

  function RankRead(cfg: Config, s: State, c: Member): State {
    if !FrameOf(s, c).Inserted? then
      s
    else
      var Inserted(at, t) := FrameOf(s, c);
      var rank := ZRank(s.owners, c);
      if rank == None || rank.value >= cfg.limit then
        Goto(s, c, Refused(at, t))
      else
        Goto(s, c, Holding(at, t)).(grants := s.grants[c := Grant(Ahead(s.owners, c), Uninserted(s, t))])
  }

  function StampRemoved(s: State, c: Member): State {
    match FrameOf(s, c)
    case Refused(at, t) => Goto(s, c, Removing(at, t)).(stamps := ZRem(s.stamps, c))
    case Holding(at, t) => Goto(s, c, Removing(at, t)).(stamps := ZRem(s.stamps, c))
    case _ => s
  }

  function OwnerRemoved(s: State, c: Member): State {
    if FrameOf(s, c).Removing? then Goto(s, c, Idle).(owners := ZRem(s.owners, c)) else s
  }

  function Step(cfg: Config, s: State, a: Action): State {
    match a
    case Tick(d) => s.(clock := s.clock + d)
    case Stamp(c) => if FrameOf(s, c).Idle? then Goto(s, c, Stamped(s.clock)) else s
    case Prune(c) => Pruned(cfg, s, c)
    case Intersect => Intersected(s)
    case Burn => s.(counter := s.counter + 1)
    case Draw(c) => Drawn(s, c)
    case AddStamp(c) => StampInserted(s, c)
    case AddOwner(c) => OwnerInserted(s, c)
    case ReadRank(c) => RankRead(cfg, s, c)
    case RemStamp(c) => StampRemoved(s, c)
    case RemOwner(c) => OwnerRemoved(s, c)
  }

  /** The state after a run. */
  function Exec(cfg: Config, s: State, acts: seq<Action>): State {
    if acts == [] then s else Step(cfg, Exec(cfg, s, acts[..|acts| - 1]), acts[|acts| - 1])
  }

  // ---------------------------------------------------------------- set agreement

  predicate HasTicket(f: Frame) {
    !f.Idle? && !f.Stamped?
  }

  /** Holding a ticket that is not in the owner set yet. */
  predicate Arriving(f: Frame) {
    f.Ticketed? || f.StampAdded?
  }

  predicate MayStamp(f: Frame) {
    HasTicket(f) && !f.Ticketed? && !f.Removing?
  }

  predicate MayOwn(f: Frame) {
    HasTicket(f) && !Arriving(f)
  }

  predicate PastLease(cfg: Config, s: State, stamp: int) {
    stamp + cfg.lease <= s.clock
  }

  /** Both sets and the counter agree with caller c's frame. */
  predicate EntriesAgree(s: State, c: Member) {
    var f := FrameOf(s, c);
    && (HasTicket(f) ==> f.ticket <= s.counter)
    && (!f.Idle? ==> f.stamp <= s.clock)
    && (c in s.owners ==> MayOwn(f) && s.owners[c] == f.ticket)
    && (c in s.stamps ==> MayStamp(f) && s.stamps[c] == f.stamp)
  }

  /** A stamp is only lost past its lease, and an inserted caller loses its stamp first. */
  predicate LeaseKept(cfg: Config, s: State, c: Member) {
    var f := FrameOf(s, c);
    && (MayStamp(f) ==> c in s.stamps || PastLease(cfg, s, f.stamp))
    && (f.Inserted? || f.Holding? || f.Refused? ==> (c in s.stamps ==> c in s.owners))
  }

  predicate DistinctTickets(s: State, c: Member, d: Member) {
    c != d && HasTicket(FrameOf(s, c)) && HasTicket(FrameOf(s, d)) ==> FrameOf(s, c).ticket != FrameOf(s, d).ticket
  }

  predicate Bounded(cfg: Config, s: State, h: Member) {
    FrameOf(s, h).Holding? ==> h in s.grants && |s.grants[h].ahead| < cfg.limit
  }

  /** A caller with a smaller ticket than holder h, if it can still be live, ranked ahead of h or was overtaken. */
  predicate Explained(s: State, h: Member, c: Member) {
    var f := FrameOf(s, c);
    FrameOf(s, h).Holding? && h in s.grants && HasTicket(f) && f.ticket < FrameOf(s, h).ticket ==>
      && (Arriving(f) ==> c in s.grants[h].behind)
      && ((f.Inserted? || f.Holding?) && c in s.owners ==> c in s.grants[h].ahead + s.grants[h].behind)
  }

  ghost predicate Inv(cfg: Config, s: State) {
    && (forall c :: EntriesAgree(s, c))
    && (forall c :: LeaseKept(cfg, s, c))
    && (forall c, d :: DistinctTickets(s, c, d))
    && (forall h :: Bounded(cfg, s, h))
    && (forall h, c :: Explained(s, h, c))
  }

  /** The caller an action belongs to. */
  function Caller(a: Action): Member {
    match a
    case Tick(_) => 0
    case Intersect => 0
    case Burn => 0
    case _ => a.c
  }

  /** The steps that read clock or rank, draw a ticket, or take entries out. */
  lemma ThinningKeepsEntries(cfg: Config, s: State, a: Action, c: Member)
    requires EntriesAgree(s, c) && !a.AddStamp? && !a.AddOwner?
    ensures EntriesAgree(Step(cfg, s, a), c)
  {
  }

  lemma InsertionKeepsEntries(cfg: Config, s: State, a: Action, c: Member)
    requires EntriesAgree(s, c) && (a.AddStamp? || a.AddOwner?)
    ensures EntriesAgree(Step(cfg, s, a), c)
  {
  }

  lemma StepKeepsEntries(cfg: Config, s: State, a: Action, c: Member)
    requires EntriesAgree(s, c)
    ensures EntriesAgree(Step(cfg, s, a), c)
  {
    if a.AddStamp? || a.AddOwner? {
      InsertionKeepsEntries(cfg, s, a, c);
    } else {
      ThinningKeepsEntries(cfg, s, a, c);
    }
  }

  lemma StepKeepsLease(cfg: Config, s: State, a: Action, c: Member)
    requires EntriesAgree(s, c) && EntriesAgree(s, Caller(a)) && LeaseKept(cfg, s, c)
    ensures LeaseKept(cfg, Step(cfg, s, a), c)
  {
  }

  lemma StepKeepsTickets(cfg: Config, s: State, a: Action, c: Member, d: Member)
    requires EntriesAgree(s, c) && EntriesAgree(s, d) && DistinctTickets(s, c, d)
    ensures DistinctTickets(Step(cfg, s, a), c, d)
  {
  }

  lemma StepKeepsBound(cfg: Config, s: State, a: Action, h: Member)
    requires Bounded(cfg, s, h)
    ensures Bounded(cfg, Step(cfg, s, a), h)
  {
  }

  lemma StepExplains(cfg: Config, s: State, a: Action, h: Member, c: Member)
    requires EntriesAgree(s, c) && EntriesAgree(s, h) && Explained(s, h, c) && Bounded(cfg, s, h)
    ensures Explained(Step(cfg, s, a), h, c)
  {
  }

  lemma StepKeepsInv(cfg: Config, s: State, a: Action)
    requires Inv(cfg, s)
    ensures Inv(cfg, Step(cfg, s, a))
  {
    var s' := Step(cfg, s, a);
    forall c ensures EntriesAgree(s', c) && LeaseKept(cfg, s', c) {
      StepKeepsEntries(cfg, s, a, c);
      StepKeepsLease(cfg, s, a, c);
    }
    forall c, d ensures DistinctTickets(s', c, d) {
      StepKeepsTickets(cfg, s, a, c, d);
    }
    forall h ensures Bounded(cfg, s', h) {
      StepKeepsBound(cfg, s, a, h);
    }
    forall h, c ensures Explained(s', h, c) {
      StepExplains(cfg, s, a, h, c);
    }
  }

  lemma {:induction false} RunKeepsInv(cfg: Config, acts: seq<Action>)
    ensures Inv(cfg, Exec(cfg, Initial, acts))
  {
    if acts != [] {
      RunKeepsInv(cfg, acts[..|acts| - 1]);
      StepKeepsInv(cfg, Exec(cfg, Initial, acts[..|acts| - 1]), acts[|acts| - 1]);
    }
  }

  /** An id in one set only is mid-insert, mid-removal, or past its lease; a live permit is in both. */
  lemma SetsAgree(cfg: Config, acts: seq<Action>, c: Member)
    ensures var s := Exec(cfg, Initial, acts);
            && (c in s.stamps && c !in s.owners ==> FrameOf(s, c).StampAdded? || FrameOf(s, c).Readding?)
            && (c in s.owners && c !in s.stamps ==>
                  FrameOf(s, c).Removing? || (MayStamp(FrameOf(s, c)) && PastLease(cfg, s, FrameOf(s, c).stamp)))
            && (FrameOf(s, c).Holding? && s.clock < FrameOf(s, c).stamp + cfg.lease ==>
                  c in s.stamps && c in s.owners)
  {
    RunKeepsInv(cfg, acts);
    var s := Exec(cfg, Initial, acts);
    assert EntriesAgree(s, c) && LeaseKept(cfg, s, c);
  }

  /** Owner scores are distinct tickets no larger than the shared counter. */
  lemma OwnerTickets(cfg: Config, acts: seq<Action>, c: Member, d: Member)
    ensures var s := Exec(cfg, Initial, acts);
            && (c in s.owners ==> s.owners[c] <= s.counter)
            && (c in s.owners && d in s.owners && c != d ==> s.owners[c] != s.owners[d])
  {
    RunKeepsInv(cfg, acts);
    var s := Exec(cfg, Initial, acts);
    assert EntriesAgree(s, c) && EntriesAgree(s, d) && DistinctTickets(s, c, d);
  }

  // ---------------------------------------------------------------- the permit bound

  /** Granted, not released and not pruned. */
  function Live(s: State): set<Member> {
    set c | c in s.frames && s.frames[c].Holding? && c in s.owners
  }

  predicate IsHighest(s: State, h: Member) {
    h in Live(s) && forall c | c in Live(s) :: s.frames[c].ticket <= s.frames[h].ticket
  }

  /** Step k of the run granted h its present permit. */
  predicate GrantedAt(cfg: Config, acts: seq<Action>, h: Member, k: nat) {
    && k < |acts| && acts[k] == ReadRank(h)
    && var before := Exec(cfg, Initial, acts[..k]);
    && var after := Exec(cfg, Initial, acts);
    && FrameOf(before, h).Inserted? && FrameOf(after, h).Holding?
    && FrameOf(before, h).ticket == FrameOf(after, h).ticket
    && h in before.owners && h in after.grants
    && after.grants[h] == Grant(Ahead(before.owners, h), Uninserted(before, FrameOf(after, h).ticket))
  }

  /** A permit is granted by reading the rank, and its grant never changes while held. */
  lemma GrantOrigin(cfg: Config, s: State, a: Action, h: Member)
    requires FrameOf(Step(cfg, s, a), h).Holding? && Bounded(cfg, s, h)
    ensures var s', f := Step(cfg, s, a), FrameOf(Step(cfg, s, a), h);
            h in s'.grants &&
            if FrameOf(s, h).Holding? then
              FrameOf(s, h) == f && h in s.grants && s.grants[h] == s'.grants[h]
            else
              && a == ReadRank(h) && FrameOf(s, h) == Inserted(f.stamp, f.ticket) && h in s.owners
              && s'.grants[h] == Grant(Ahead(s.owners, h), Uninserted(s, f.ticket))
  {
  }

  lemma {:induction false} GrantStep(cfg: Config, acts: seq<Action>, h: Member) returns (k: nat)
    requires FrameOf(Exec(cfg, Initial, acts), h).Holding?
    ensures GrantedAt(cfg, acts, h, k)
  {
    var n := |acts| - 1;
    RunKeepsInv(cfg, acts[..n]);
    assert Bounded(cfg, Exec(cfg, Initial, acts[..n]), h);
    GrantOrigin(cfg, Exec(cfg, Initial, acts[..n]), acts[n], h);
    if FrameOf(Exec(cfg, Initial, acts[..n]), h).Holding? {
      k := GrantStep(cfg, acts[..n], h);
      assert acts[..n][..k] == acts[..k];
    } else {
      k := n;
    }
  }

  lemma UnionBound<T>(a: set<T>, b: set<T>)
    ensures |a + b| <= |a| + |b|
  {
    assert |a + b| == |a| + |b - a| by {
      assert a + b == a + (b - a);
    }
    SubsetBound(b - a, b);
  }

  lemma {:induction false} SubsetBound<T>(a: set<T>, b: set<T>)
    requires a <= b
    ensures |a| <= |b|
  {
    assert b == a + (b - a);
  }

  lemma LiveAreExplained(cfg: Config, s: State, h: Member)
    requires Inv(cfg, s) && IsHighest(s, h)
    ensures h in s.grants
    ensures |Live(s)| <= cfg.limit + |s.grants[h].behind|
  {
    assert Bounded(cfg, s, h);
    var others := Live(s) - {h};
    var g := s.grants[h];
    forall c | c in others ensures c in g.ahead + g.behind {
      assert DistinctTickets(s, c, h) && Explained(s, h, c);
    }
    assert Live(s) == others + {h};
    SubsetBound(others, g.ahead + g.behind);
    UnionBound(g.ahead, g.behind);
  }

  /**
   * In every interleaving the live permits number at most the limit plus the callers that held a
   * smaller ticket not yet inserted when the highest-ticket live holder was granted.
   */
  lemma PermitBound(cfg: Config, acts: seq<Action>, h: Member)
    requires IsHighest(Exec(cfg, Initial, acts), h)
    ensures exists k: nat :: GrantedAt(cfg, acts, h, k) &&
              |Live(Exec(cfg, Initial, acts))|
              <= cfg.limit + |Uninserted(Exec(cfg, Initial, acts[..k]), FrameOf(Exec(cfg, Initial, acts), h).ticket)|
  {
    RunKeepsInv(cfg, acts);
    LiveAreExplained(cfg, Exec(cfg, Initial, acts), h);
    var k := GrantStep(cfg, acts, h);
    assert GrantedAt(cfg, acts, h, k);
  }

  lemma {:induction false} HighestExists(s: State, among: set<Member>) returns (h: Member)
    requires among <= Live(s) && among != {}
    ensures h in among && forall c | c in among :: s.frames[c].ticket <= s.frames[h].ticket
  {
    h :| h in among;
    if among != {h} {
      var g := HighestExists(s, among - {h});
      assert among == {h} + (among - {h});
      if s.frames[g].ticket > s.frames[h].ticket {
        h := g;
      }
    }
  }

  // ---------------------------------------------------------------- insertion in ticket order

  /** Every owner insertion finds no smaller ticket uninserted. */
  ghost predicate InTicketOrder(cfg: Config, acts: seq<Action>) {
    forall k, c | 0 <= k < |acts| && acts[k] == AddOwner(c) ::
      var s := Exec(cfg, Initial, acts[..k]);
      FrameOf(s, c).StampAdded? ==> Uninserted(s, FrameOf(s, c).ticket) == {}
  }

  predicate NotOvertaking(s: State, h: Member, c: Member) {
    FrameOf(s, h).Inserted? && Arriving(FrameOf(s, c)) ==> FrameOf(s, c).ticket >= FrameOf(s, h).ticket
  }

  lemma StepKeepsOrder(cfg: Config, s: State, a: Action, h: Member, c: Member)
    requires EntriesAgree(s, h) && NotOvertaking(s, h, c)
    requires a == AddOwner(h) && FrameOf(s, h).StampAdded? ==> c !in Uninserted(s, FrameOf(s, h).ticket)
    ensures NotOvertaking(Step(cfg, s, a), h, c)
  {
  }

  lemma {:induction false} OrderedRunNeverOvertakes(cfg: Config, acts: seq<Action>, h: Member, c: Member)
    requires InTicketOrder(cfg, acts)
    ensures NotOvertaking(Exec(cfg, Initial, acts), h, c)
  {
    if acts != [] {
      var n := |acts| - 1;
      assert forall k | 0 <= k < n :: acts[..n][..k] == acts[..k];
      OrderedRunNeverOvertakes(cfg, acts[..n], h, c);
      RunKeepsInv(cfg, acts[..n]);
      StepKeepsOrder(cfg, Exec(cfg, Initial, acts[..n]), acts[n], h, c);
    }
  }

  /** With insertions in ticket order, at most `limit` permits are ever live. */
  lemma OrderedPermitBound(cfg: Config, acts: seq<Action>)
    requires InTicketOrder(cfg, acts)
    ensures Live(Exec(cfg, Initial, acts)) == {} || |Live(Exec(cfg, Initial, acts))| <= cfg.limit
  {
    var s := Exec(cfg, Initial, acts);
    if Live(s) != {} {
      var h := HighestExists(s, Live(s));
      RunKeepsInv(cfg, acts);
      LiveAreExplained(cfg, s, h);
      var k := GrantStep(cfg, acts, h);
      NobodyOvertaken(cfg, acts, h, k);
    }
  }

  lemma NobodyOvertaken(cfg: Config, acts: seq<Action>, h: Member, k: nat)
    requires InTicketOrder(cfg, acts) && GrantedAt(cfg, acts, h, k)
    ensures Exec(cfg, Initial, acts).grants[h].behind == {}
  {
    assert forall j | 0 <= j < k :: acts[..k][..j] == acts[..j];
    forall c ensures c !in Exec(cfg, Initial, acts).grants[h].behind {
      OrderedRunNeverOvertakes(cfg, acts[..k], h, c);
    }
  }

  // ---------------------------------------------------------------- one uninterrupted attempt

  lemma ExecSnoc(cfg: Config, s: State, acts: seq<Action>, a: Action)
    ensures Exec(cfg, s, acts + [a]) == Step(cfg, Exec(cfg, s, acts), a)
  {
    assert (acts + [a])[..|acts|] == acts;
  }

  /** The commands of one attempt up to reading the rank. */
  function Attempt(c: Member): seq<Action> {
    [Stamp(c), Prune(c), Intersect, Draw(c), AddStamp(c), AddOwner(c), ReadRank(c)]
  }

  lemma {:induction false} ExecConcat(cfg: Config, s: State, xs: seq<Action>, ys: seq<Action>)
    ensures Exec(cfg, s, xs + ys) == Exec(cfg, Exec(cfg, s, xs), ys)
  {
    if ys == [] {
      assert xs + ys == xs;
    } else {
      var n := |ys| - 1;
      assert (xs + ys)[..|xs + ys| - 1] == xs + ys[..n];
      ExecConcat(cfg, s, xs, ys[..n]);
    }
  }

  /** The entries in both sets whose lease still runs. */
  function Claimed(cfg: Config, s: State): set<Member> {
    set x | x in s.owners && x in s.stamps && s.stamps[x] > s.clock - cfg.lease
  }

  function AfterAttempt(cfg: Config, s: State, c: Member): State {
    var s1 := Drawn(Intersected(Pruned(cfg, Goto(s, c, Stamped(s.clock)), c)), c);
    RankRead(cfg, OwnerInserted(StampInserted(s1, c), c), c)
  }

  lemma TicketRuns(cfg: Config, s: State, c: Member)
    requires FrameOf(s, c).Idle?
    ensures Exec(cfg, s, [Stamp(c), Prune(c), Intersect, Draw(c)])
         == Drawn(Intersected(Pruned(cfg, Goto(s, c, Stamped(s.clock)), c)), c)
  {
    var acts := [Stamp(c), Prune(c), Intersect, Draw(c)];
    var stamped := Goto(s, c, Stamped(s.clock));
    assert acts[..1] == [Stamp(c)] && acts[..2][..1] == acts[..1] && acts[..3][..2] == acts[..2];
    assert Exec(cfg, s, acts[..1]) == stamped;
    assert Exec(cfg, s, acts[..2]) == Pruned(cfg, stamped, c);
    assert Exec(cfg, s, acts[..3]) == Intersected(Pruned(cfg, stamped, c));
  }

  lemma EntryRuns(cfg: Config, s: State, c: Member)
    ensures Exec(cfg, s, [AddStamp(c), AddOwner(c), ReadRank(c)])
         == RankRead(cfg, OwnerInserted(StampInserted(s, c), c), c)
  {
    var acts := [AddStamp(c), AddOwner(c), ReadRank(c)];
    assert acts[..1] == [AddStamp(c)] && acts[..2][..1] == acts[..1];
    assert Exec(cfg, s, acts[..1]) == StampInserted(s, c);
    assert Exec(cfg, s, acts[..2]) == OwnerInserted(StampInserted(s, c), c);
  }

  lemma AttemptRuns(cfg: Config, s: State, c: Member)
    requires FrameOf(s, c).Idle?
    ensures Exec(cfg, s, Attempt(c)) == AfterAttempt(cfg, s, c)
  {
    TicketRuns(cfg, s, c);
    EntryRuns(cfg, Exec(cfg, s, [Stamp(c), Prune(c), Intersect, Draw(c)]), c);
    assert Attempt(c) == [Stamp(c), Prune(c), Intersect, Draw(c)] + [AddStamp(c), AddOwner(c), ReadRank(c)];
    ExecConcat(cfg, s, [Stamp(c), Prune(c), Intersect, Draw(c)], [AddStamp(c), AddOwner(c), ReadRank(c)]);
  }

  /** Uninterrupted, an attempt is granted exactly when fewer than `limit` running leases are claimed. */
  lemma AttemptDecision(cfg: Config, s: State, c: Member)
    requires Inv(cfg, s) && FrameOf(s, c).Idle?
    ensures FrameOf(Exec(cfg, s, Attempt(c)), c).Holding? <==> |Claimed(cfg, s)| < cfg.limit
    ensures FrameOf(Exec(cfg, s, Attempt(c)), c).Holding? || FrameOf(Exec(cfg, s, Attempt(c)), c).Refused?
  {
    AttemptRuns(cfg, s, c);
    assert EntriesAgree(s, c);
    var s1 := Drawn(Intersected(Pruned(cfg, Goto(s, c, Stamped(s.clock)), c)), c);
    var s2 := OwnerInserted(StampInserted(s1, c), c);
    forall x ensures x in Ahead(s2.owners, c) <==> x in Claimed(cfg, s) {
      assert EntriesAgree(s, x);
    }
    assert Ahead(s2.owners, c) == Claimed(cfg, s);
  }

  /** A refused caller whose pipeline repeats its insertions is in both sets again. */
  lemma RepeatedInsertion(s: State, c: Member)
    requires FrameOf(s, c).Refused?
    ensures var t := OwnerInserted(StampInserted(s, c), c);
            && t == s.(stamps := s.stamps[c := FrameOf(s, c).stamp], owners := s.owners[c := FrameOf(s, c).ticket],
                       frames := t.frames)
            && FrameOf(t, c) == FrameOf(s, c)
  {
  }

  /** The removals after it take the caller out of both sets, whatever they held. */
  lemma RefusalWithdrawn(s: State, c: Member)
    requires FrameOf(s, c).Refused?
    ensures var t := OwnerRemoved(StampRemoved(s, c), c);
            && t == s.(stamps := s.stamps - {c}, owners := s.owners - {c}, frames := t.frames) && FrameOf(t, c).Idle?
  {
  }
}
