/**
 * The limiter's overlapping guard calls are runs of the semaphore in which nobody releases: how many
 * grants a window of time may then hold.
 */
module WindowBound {
  import opened SortedSets
  import opened Semaphore
  import opened Overtaking

  /** The grants stamped in (t - lease, t]. */
  function GrantsIn(cfg: Config, s: State, t: int): set<Member> {
    set c | c in s.frames && s.frames[c].Holding? && t - cfg.lease < s.frames[c].stamp <= t
  }

  /** On the way to a grant, or granted. */
  predicate Going(f: Frame) {
    f.Ticketed? || f.StampAdded? || f.Inserted? || f.Holding?
  }

  /** A caller whose ticket was drawn by step k was on its way with it then. */
  lemma {:induction false} WasGoing(cfg: Config, acts: seq<Action>, k: nat, c: Member)
    requires k <= |acts| && Going(FrameOf(Exec(cfg, Initial, acts), c))
    requires FrameOf(Exec(cfg, Initial, acts), c).ticket <= Exec(cfg, Initial, acts[..k]).counter
    ensures var f, g := FrameOf(Exec(cfg, Initial, acts), c), FrameOf(Exec(cfg, Initial, acts[..k]), c);
            Going(g) && g.ticket == f.ticket && g.stamp == f.stamp
  {
    if k == |acts| {
      assert acts[..k] == acts;
    } else {
      var n := |acts| - 1;
      assert acts[..n][..k] == acts[..k];
      CounterGrows(cfg, acts[..n], k);
      StillGoing(cfg, Exec(cfg, Initial, acts[..n]), acts[n], c);
      WasGoing(cfg, acts[..n], k, c);
    }
  }

  lemma {:induction false} CounterGrows(cfg: Config, acts: seq<Action>, k: nat)
    requires k <= |acts|
    ensures Exec(cfg, Initial, acts[..k]).counter <= Exec(cfg, Initial, acts).counter
  {
    if k == |acts| {
      assert acts[..k] == acts;
    } else {
      var n := |acts| - 1;
      assert acts[..n][..k] == acts[..k];
      CounterGrows(cfg, acts[..n], k);
      StepCounts(cfg, Exec(cfg, Initial, acts[..n]), acts[n]);
    }
  }

  lemma StepCounts(cfg: Config, s: State, a: Action)
    ensures s.counter <= Step(cfg, s, a).counter
  {
  }

  lemma StillGoing(cfg: Config, s: State, a: Action, c: Member)
    requires Going(FrameOf(Step(cfg, s, a), c)) && FrameOf(Step(cfg, s, a), c).ticket <= s.counter
    ensures var f, g := FrameOf(Step(cfg, s, a), c), FrameOf(s, c);
            Going(g) && g.ticket == f.ticket && g.stamp == f.stamp
  {
  }

  /** At the grant to h everyone in the window with a smaller ticket ranked ahead of h or was overtaken. */
  lemma AheadOrOvertaken(cfg: Config, s: State, h: Member, c: Member, t: int)
    requires Inv(cfg, s) && s.clock <= t && h in s.owners && FrameOf(s, h).Inserted?
    requires Going(FrameOf(s, c)) && FrameOf(s, c).stamp > t - cfg.lease
    requires c != h && FrameOf(s, c).ticket <= FrameOf(s, h).ticket
    ensures c in Ahead(s.owners, h) + Uninserted(s, FrameOf(s, h).ticket)
  {
    assert EntriesAgree(s, c) && EntriesAgree(s, h) && LeaseKept(cfg, s, c) && DistinctTickets(s, c, h);
  }

  /**
   * In every interleaving, a window of time holds at most the limit plus the callers overtaken by the
   * highest-ticket grant in it, once that grant has been decided.
   */
  lemma GrantsPerWindow(cfg: Config, acts: seq<Action>, t: int, h: Member) returns (k: nat)
    requires var s := Exec(cfg, Initial, acts);
             h in GrantsIn(cfg, s, t) && forall c | c in GrantsIn(cfg, s, t) :: s.frames[c].ticket <= s.frames[h].ticket
    ensures GrantedAt(cfg, acts, h, k)
    ensures var s, before := Exec(cfg, Initial, acts), Exec(cfg, Initial, acts[..k]);
            before.clock <= t ==> |GrantsIn(cfg, s, t)| <= cfg.limit + |Uninserted(before, FrameOf(s, h).ticket)|
  {
    var s := Exec(cfg, Initial, acts);
    RunKeepsInv(cfg, acts);
    k := GrantStep(cfg, acts, h);
    var before := Exec(cfg, Initial, acts[..k]);
    RunKeepsInv(cfg, acts[..k]);
    if before.clock <= t {
      var ahead, behind := Ahead(before.owners, h), Uninserted(before, FrameOf(s, h).ticket);
      var others := GrantsIn(cfg, s, t) - {h};
      assert EntriesAgree(before, h) && Bounded(cfg, s, h);
      forall c | c in others ensures c in ahead + behind {
        WasGoing(cfg, acts, k, c);
        AheadOrOvertaken(cfg, before, h, c, t);
      }
      assert GrantsIn(cfg, s, t) == others + {h};
      SubsetBound(others, ahead + behind);
      UnionBound(ahead, behind);
    }
  }

  // ---------------------------------------------------------------- a grant decided too late

  /** Callers 1 and 2 draw tickets at time 0, and caller 1 gets in. */
  const Prompt: seq<Action> := AllDraw(2) + [AddStamp(1)] + [AddOwner(1)] + [ReadRank(1)]

  /** A lease later caller 3 prunes caller 1's entry, and only then caller 2 inserts its own and gets in too. */
  function Tardy(cfg: Config): seq<Action>
    requires cfg.lease > 0
  {
    Prompt + [Tick(cfg.lease)] + [Stamp(3)] + [Prune(3)] + [Intersect] + [AddStamp(2)] + [AddOwner(2)] + [ReadRank(2)]
  }

  /** Where callers 1 and 2 are, the others being idle except caller 3. */
  ghost predicate Stand(s: State, clock: int, one: Frame, two: Frame, three: Frame) {
    && s.clock == clock && FrameOf(s, 1) == one && FrameOf(s, 2) == two && FrameOf(s, 3) == three
    && OthersIdle(s)
  }

  ghost predicate OthersIdle(s: State) {
    forall c | c > 3 || c == 0 :: FrameOf(s, c).Idle?
  }

  lemma OthersStayIdle(s: State, t: State)
    requires OthersIdle(s) && forall c | c > 3 || c == 0 :: (c in t.frames <==> c in s.frames)
    requires forall c | (c > 3 || c == 0) && c in s.frames :: t.frames[c] == s.frames[c]
    ensures OthersIdle(t)
  {
    forall c | c > 3 || c == 0 ensures FrameOf(t, c).Idle? {
      assert FrameOf(s, c).Idle?;
    }
  }

  lemma TicketsDrawn(cfg: Config)
    ensures var s := Exec(cfg, Initial, AllDraw(2));
            Stand(s, 0, Ticketed(0, 1), Ticketed(0, 2), Idle) && s.stamps == map[] && s.owners == map[]
  {
    var s := Exec(cfg, Initial, AllDraw(2));
    AllDrawn(cfg, 2);
    RunKeepsInv(cfg, AllDraw(2));
    forall c ensures c !in s.stamps && c !in s.owners && (c == 0 || c > 2 ==> FrameOf(s, c).Idle?) {
      assert EnteredAbove(s, 2, 2, c) && EntriesAgree(s, c);
    }
    assert EnteredAbove(s, 2, 2, 1) && EnteredAbove(s, 2, 2, 2);
  }

  lemma FirstGetsIn(cfg: Config, s: State)
    requires cfg.limit == 1 && Stand(s, 0, Ticketed(0, 1), Ticketed(0, 2), Idle)
    requires s.stamps == map[] && s.owners == map[]
    ensures var t := Step(cfg, Step(cfg, Step(cfg, s, AddStamp(1)), AddOwner(1)), ReadRank(1));
            Stand(t, 0, Holding(0, 1), Ticketed(0, 2), Idle) && t.stamps == map[1 := 0] && t.owners == map[1 := 1]
  {
    var t := OwnerInserted(StampInserted(s, 1), 1);
    assert t.owners == map[1 := 1] && t.stamps == map[1 := 0] && Ahead(t.owners, 1) == {};
    OthersStayIdle(s, RankRead(cfg, t, 1));
  }

  lemma ThirdPrunes(cfg: Config, s: State)
    requires cfg.lease > 0 && Stand(s, 0, Holding(0, 1), Ticketed(0, 2), Idle)
    requires s.stamps == map[1 := 0] && s.owners == map[1 := 1]
    ensures var t := Step(cfg, Step(cfg, Step(cfg, Step(cfg, s, Tick(cfg.lease)), Stamp(3)), Prune(3)), Intersect);
            && Stand(t, cfg.lease, Holding(0, 1), Ticketed(0, 2), Stamped(cfg.lease))
            && t.stamps == map[] && t.owners == map[]
  {
    var t := Step(cfg, Step(cfg, Step(cfg, Step(cfg, s, Tick(cfg.lease)), Stamp(3)), Prune(3)), Intersect);
    OthersStayIdle(s, t);
  }

  lemma SecondInserts(cfg: Config, s: State)
    requires Stand(s, cfg.lease, Holding(0, 1), Ticketed(0, 2), Stamped(cfg.lease)) && s.owners == map[]
    ensures var t := Step(cfg, Step(cfg, s, AddStamp(2)), AddOwner(2));
            && Stand(t, cfg.lease, Holding(0, 1), Inserted(0, 2), Stamped(cfg.lease))
            && t.owners == map[2 := 2] && Uninserted(t, 2) == {}
  {
    var t := OwnerInserted(StampInserted(s, 2), 2);
    OthersStayIdle(s, t);
    forall c ensures c !in Uninserted(t, 2) {
      assert c == 2 || FrameOf(t, c) == FrameOf(s, c);
    }
  }

  lemma SecondGetsIn(cfg: Config, s: State)
    requires cfg.limit == 1 && Stand(s, cfg.lease, Holding(0, 1), Inserted(0, 2), Stamped(cfg.lease))
    requires s.owners == map[2 := 2] && Uninserted(s, 2) == {}
    ensures var t := Step(cfg, s, ReadRank(2));
            && Stand(t, cfg.lease, Holding(0, 1), Holding(0, 2), Stamped(cfg.lease))
            && 2 in t.grants && t.grants[2] == Grant({}, {})
  {
    assert Ahead(s.owners, 2) == {};
    OthersStayIdle(s, RankRead(cfg, s, 2));
  }

  lemma ThreeMore(cfg: Config, acts: seq<Action>, a: Action, b: Action, c: Action)
    ensures Exec(cfg, Initial, acts + [a] + [b] + [c])
         == Step(cfg, Step(cfg, Step(cfg, Exec(cfg, Initial, acts), a), b), c)
  {
    ExecSnoc(cfg, Initial, acts, a);
    ExecSnoc(cfg, Initial, acts + [a], b);
    ExecSnoc(cfg, Initial, acts + [a] + [b], c);
  }

  /**
   * A window whose highest-ticket grant is decided after its end can hold more: with a limit of one,
   * two grants, the second of which overtook nobody.
   */
  lemma LateDecisionOverfills(cfg: Config)
    requires cfg.limit == 1 && cfg.lease > 0
    ensures var s := Exec(cfg, Initial, Tardy(cfg));
            GrantsIn(cfg, s, 0) == {1, 2} && 2 in s.grants && s.grants[2].behind == {}
  {
    var pruned := Prompt + [Tick(cfg.lease)] + [Stamp(3)] + [Prune(3)];
    TicketsDrawn(cfg);
    FirstGetsIn(cfg, Exec(cfg, Initial, AllDraw(2)));
    ThreeMore(cfg, AllDraw(2), AddStamp(1), AddOwner(1), ReadRank(1));
    ThirdPrunes(cfg, Exec(cfg, Initial, Prompt));
    ThreeMore(cfg, Prompt, Tick(cfg.lease), Stamp(3), Prune(3));
    ExecSnoc(cfg, Initial, pruned, Intersect);
    var s := Exec(cfg, Initial, pruned + [Intersect]);
    SecondInserts(cfg, s);
    SecondGetsIn(cfg, Step(cfg, Step(cfg, s, AddStamp(2)), AddOwner(2)));
    ThreeMore(cfg, pruned + [Intersect], AddStamp(2), AddOwner(2), ReadRank(2));
    GrantsAreTwo(cfg, Exec(cfg, Initial, Tardy(cfg)));
  }

  lemma GrantsAreTwo(cfg: Config, s: State)
    requires cfg.lease > 0 && Stand(s, cfg.lease, Holding(0, 1), Holding(0, 2), Stamped(cfg.lease))
    ensures GrantsIn(cfg, s, 0) == {1, 2}
  {
    forall c ensures c in GrantsIn(cfg, s, 0) <==> c in {1, 2} {
      assert c in s.frames ==> FrameOf(s, c) == s.frames[c];
    }
  }
}
