/**
 * Why the permit bound has to count overtaken callers: without an order of insertion, all of any
 * number of callers can hold a permit at once.
 */
module Overtaking {
  import opened SortedSets
  import opened Semaphore

  /** Callers 1..m each read the clock and send their first batch, which draws their ticket. */
  function AllDraw(m: nat): seq<Action> {
    if m == 0 then [] else AllDraw(m - 1) + [Stamp(m)] + [Prune(m)] + [Intersect] + [Draw(m)]
  }

  /** After that, callers m, m-1, ..., k+1 insert themselves and read their rank. */
  function EnterInReverse(m: nat, k: nat): seq<Action>
    requires k <= m
    decreases m - k
  {
    if k == m then AllDraw(m)
    else EnterInReverse(m, k + 1) + [AddStamp(k + 1)] + [AddOwner(k + 1)] + [ReadRank(k + 1)]
  }

  /** Caller c's place once callers above k have entered. */
  predicate EnteredAbove(s: State, m: nat, k: nat, c: Member) {
    && FrameOf(s, c) == (if 1 <= c <= k then Ticketed(0, c) else if k < c <= m then Holding(0, c) else Idle)
    && (c in s.owners <==> k < c <= m)
    && (c in s.owners ==> s.owners[c] == c)
  }

  ghost predicate AllEnteredAbove(s: State, m: nat, k: nat) {
    forall c :: EnteredAbove(s, m, k, c)
  }

  /** With no owner yet, drawing is all the first batch does to the callers and the owners. */
  lemma DrawOne(cfg: Config, s: State, m: nat)
    requires s.counter == m && s.clock == 0 && AllEnteredAbove(s, m, m)
    ensures var s' := Drawn(Intersected(Pruned(cfg, Step(cfg, s, Stamp(m + 1)), m + 1)), m + 1);
            s'.counter == m + 1 && s'.clock == 0 && AllEnteredAbove(s', m + 1, m + 1)
  {
    var s' := Drawn(Intersected(Pruned(cfg, Step(cfg, s, Stamp(m + 1)), m + 1)), m + 1);
    assert EnteredAbove(s, m, m, m + 1);
    var n := m + 1;
    forall c ensures EnteredAbove(s', n, n, c) {
      assert EnteredAbove(s, m, m, c);
    }
  }

  lemma {:induction false} AllDrawn(cfg: Config, m: nat)
    ensures var s := Exec(cfg, Initial, AllDraw(m));
            s.counter == m && s.clock == 0 && AllEnteredAbove(s, m, m)
  {
    if m > 0 {
      var prior := AllDraw(m - 1);
      AllDrawn(cfg, m - 1);
      ExecSnoc(cfg, Initial, prior, Stamp(m));
      ExecSnoc(cfg, Initial, prior + [Stamp(m)], Prune(m));
      ExecSnoc(cfg, Initial, prior + [Stamp(m)] + [Prune(m)], Intersect);
      ExecSnoc(cfg, Initial, prior + [Stamp(m)] + [Prune(m)] + [Intersect], Draw(m));
      DrawOne(cfg, Exec(cfg, Initial, prior), m - 1);
    }
  }

  /** An empty field ahead: whoever enters below all owners has rank zero and is granted. */
  lemma EnterOne(cfg: Config, s: State, m: nat, k: nat)
    requires cfg.limit >= 1 && k < m && AllEnteredAbove(s, m, k + 1)
    ensures AllEnteredAbove(Step(cfg, OwnerInserted(StampInserted(s, k + 1), k + 1), ReadRank(k + 1)), m, k)
  {
    var c := k + 1;
    assert EnteredAbove(s, m, k + 1, c);
    var t := OwnerInserted(StampInserted(s, c), c);
    forall d | d in t.owners ensures d == c || (t.owners[d] == d && d > c) {
      assert EnteredAbove(s, m, k + 1, d);
    }
    assert Ahead(t.owners, c) == {};
    forall d ensures EnteredAbove(Step(cfg, t, ReadRank(c)), m, k, d) {
      assert EnteredAbove(s, m, k + 1, d);
    }
  }

  lemma {:induction false} ReverseEntries(cfg: Config, m: nat, k: nat)
    requires cfg.limit >= 1 && k <= m
    ensures AllEnteredAbove(Exec(cfg, Initial, EnterInReverse(m, k)), m, k)
    decreases m - k
  {
    if k == m {
      AllDrawn(cfg, m);
    } else {
      var c, prior := k + 1, EnterInReverse(m, k + 1);
      ReverseEntries(cfg, m, c);
      ExecSnoc(cfg, Initial, prior, AddStamp(c));
      ExecSnoc(cfg, Initial, prior + [AddStamp(c)], AddOwner(c));
      ExecSnoc(cfg, Initial, prior + [AddStamp(c)] + [AddOwner(c)], ReadRank(c));
      EnterOne(cfg, Exec(cfg, Initial, prior), m, k);
    }
  }

  /** Caller c's own commands in a run. */
  function CommandsOf(acts: seq<Action>, c: Member): seq<Action> {
    if acts == [] then []
    else CommandsOf(acts[..|acts| - 1], c) + if IsOf(acts[|acts| - 1], c) then [acts[|acts| - 1]] else []
  }

  predicate IsOf(a: Action, c: Member) {
    !a.Tick? && !a.Intersect? && !a.Burn? && a.c == c
  }

  /** Every ticket is drawn at the end of a whole first batch, with nothing in between. */
  predicate Batched(acts: seq<Action>) {
    acts == [] ||
    (var n := |acts| - 1;
     Batched(acts[..n]) && (acts[n].Draw? ==> n >= 2 && acts[n - 2] == Prune(acts[n].c) && acts[n - 1] == Intersect))
  }

  lemma CommandsSnoc(acts: seq<Action>, a: Action, c: Member)
    ensures CommandsOf(acts + [a], c) == CommandsOf(acts, c) + if IsOf(a, c) then [a] else []
  {
    assert (acts + [a])[..|acts|] == acts;
  }

  lemma BatchedSnoc(acts: seq<Action>, a: Action)
    requires Batched(acts) && (a.Draw? ==> exists prior :: acts == prior + [Prune(a.c)] + [Intersect])
    ensures Batched(acts + [a])
  {
    assert (acts + [a])[..|acts|] == acts;
  }

  lemma FirstBatch(acts: seq<Action>, d: Member, c: Member)
    ensures var whole := acts + [Stamp(d)] + [Prune(d)] + [Intersect] + [Draw(d)];
            && CommandsOf(whole, c)
               == CommandsOf(acts, c) + (if c == d then [Stamp(c)] + [Prune(c)] + [Draw(c)] else [])
            && (Batched(acts) ==> Batched(whole))
  {
    var sent := acts + [Stamp(d)] + [Prune(d)] + [Intersect];
    CommandsSnoc(acts, Stamp(d), c);
    CommandsSnoc(acts + [Stamp(d)], Prune(d), c);
    CommandsSnoc(acts + [Stamp(d)] + [Prune(d)], Intersect, c);
    CommandsSnoc(sent, Draw(d), c);
    if Batched(acts) {
      BatchedSnoc(acts, Stamp(d));
      BatchedSnoc(acts + [Stamp(d)], Prune(d));
      BatchedSnoc(acts + [Stamp(d)] + [Prune(d)], Intersect);
      BatchedSnoc(sent, Draw(d));
    }
  }

  lemma SecondBatch(acts: seq<Action>, d: Member, c: Member)
    ensures var whole := acts + [AddStamp(d)] + [AddOwner(d)] + [ReadRank(d)];
            && CommandsOf(whole, c)
               == CommandsOf(acts, c) + (if c == d then [AddStamp(c)] + [AddOwner(c)] + [ReadRank(c)] else [])
            && (Batched(acts) ==> Batched(whole))
  {
    CommandsSnoc(acts, AddStamp(d), c);
    CommandsSnoc(acts + [AddStamp(d)], AddOwner(d), c);
    CommandsSnoc(acts + [AddStamp(d)] + [AddOwner(d)], ReadRank(d), c);
    if Batched(acts) {
      BatchedSnoc(acts, AddStamp(d));
      BatchedSnoc(acts + [AddStamp(d)], AddOwner(d));
      BatchedSnoc(acts + [AddStamp(d)] + [AddOwner(d)], ReadRank(d));
    }
  }

  lemma {:induction false} DrawCommands(m: nat, c: Member)
    ensures CommandsOf(AllDraw(m), c) == if 1 <= c <= m then [Stamp(c)] + [Prune(c)] + [Draw(c)] else []
    ensures Batched(AllDraw(m))
  {
    if m > 0 {
      DrawCommands(m - 1, c);
      FirstBatch(AllDraw(m - 1), m, c);
    }
  }

  /** What caller c sends in the second round, once callers above k have entered. */
  function EntryOf(m: nat, k: nat, c: Member): seq<Action> {
    if k < c <= m then [AddStamp(c)] + [AddOwner(c)] + [ReadRank(c)] else []
  }

  lemma {:induction false} EntryCommands(m: nat, k: nat, c: Member)
    requires k <= m
    ensures CommandsOf(EnterInReverse(m, k), c) == CommandsOf(AllDraw(m), c) + EntryOf(m, k, c)
    decreases m - k
  {
    if k < m {
      EntryCommands(m, k + 1, c);
      OneEntryMore(EnterInReverse(m, k + 1), CommandsOf(AllDraw(m), c), m, k, c);
    } else {
      assert CommandsOf(AllDraw(m), c) + [] == CommandsOf(AllDraw(m), c);
    }
  }

  lemma OneEntryMore(prior: seq<Action>, drawn: seq<Action>, m: nat, k: nat, c: Member)
    requires k < m && CommandsOf(prior, c) == drawn + EntryOf(m, k + 1, c)
    ensures CommandsOf(prior + [AddStamp(k + 1)] + [AddOwner(k + 1)] + [ReadRank(k + 1)], c) == drawn + EntryOf(m, k, c)
  {
    SecondBatch(prior, k + 1, c);
    assert drawn + [] == drawn;
  }

  lemma {:induction false} EntriesBatched(m: nat, k: nat)
    requires k <= m
    ensures Batched(EnterInReverse(m, k))
    decreases m - k
  {
    if k == m {
      DrawCommands(m, 0);
    } else {
      EntriesBatched(m, k + 1);
      SecondBatch(EnterInReverse(m, k + 1), k + 1, 0);
    }
  }

  /** All commands of an attempt up to reading the rank, the shared intersection aside. */
  function WholeAttempt(c: Member): seq<Action> {
    [Stamp(c)] + [Prune(c)] + [Draw(c)] + [AddStamp(c)] + [AddOwner(c)] + [ReadRank(c)]
  }

  /**
   * Out of ticket order no constant bounds the permits: for every m there is a run in which callers
   * 1..m each make one whole attempt, and all of them are live.
   */
  lemma OvertakingDefeatsTheLimit(cfg: Config, m: nat) returns (acts: seq<Action>)
    requires cfg.limit >= 1
    ensures Live(Exec(cfg, Initial, acts)) == FirstIds(m) && |Live(Exec(cfg, Initial, acts))| == m
    ensures Batched(acts) && forall c | 1 <= c <= m :: CommandsOf(acts, c) == WholeAttempt(c)
  {
    acts := EnterInReverse(m, 0);
    ReverseEntries(cfg, m, 0);
    var s := Exec(cfg, Initial, acts);
    forall c ensures c in Live(s) <==> c in FirstIds(m) {
      assert EnteredAbove(s, m, 0, c);
    }
    assert Live(s) == FirstIds(m);
    WholeAttempts(m);
  }

  lemma WholeAttempts(m: nat)
    ensures Batched(EnterInReverse(m, 0))
    ensures forall c | 1 <= c <= m :: CommandsOf(EnterInReverse(m, 0), c) == WholeAttempt(c)
  {
    EntriesBatched(m, 0);
    forall c | 1 <= c <= m ensures CommandsOf(EnterInReverse(m, 0), c) == WholeAttempt(c) {
      WholeAttemptOf(m, c);
    }
  }

  lemma WholeAttemptOf(m: nat, c: Member)
    requires 1 <= c <= m
    ensures CommandsOf(EnterInReverse(m, 0), c) == WholeAttempt(c)
  {
    EntryCommands(m, 0, c);
    DrawCommands(m, c);
    var first, second := [Stamp(c)] + [Prune(c)] + [Draw(c)], [AddStamp(c)] + [AddOwner(c)] + [ReadRank(c)];
    assert first + second == WholeAttempt(c);
  }
}
