/** The sliding-window limiter against the rule it stands for, for guard calls one after another. */
module RateLimiter {
  import opened SortedSets
  import opened RedisStore

  datatype Config = Config(permitLimit: int, window: int)

  /** The three keys of one limiter. */
  datatype Limiter = Limiter(stamps: ZSet, owners: ZSet, counter: nat)

  /** A guard call: its fresh identifier and the clock it read. */
  datatype Request = Request(id: Member, now: int)

  /** Prune what left the window, intersect the owners with the rest, count the request. */
  function Prefix(cfg: Config, l: Limiter, now: int): Limiter {
    var stamps := ZRemRangeByScore(l.stamps, None, now - cfg.window);
    Limiter(stamps, ZInterStore(l.owners, stamps, 1, 0), l.counter + 1)
  }

  function WithEntry(l: Limiter, r: Request, ticket: nat): Limiter {
    l.(stamps := ZAdd(l.stamps, r.id, r.now), owners := ZAdd(l.owners, r.id, ticket))
  }

  function WithoutEntry(l: Limiter, r: Request): Limiter {
    l.(stamps := ZRem(l.stamps, r.id), owners := ZRem(l.owners, r.id))
  }

  /** Insert the entry, read its rank, and take the entry back unless the rank is below the limit. */
  function Judge(cfg: Config, counted: Limiter, r: Request, ticket: nat, resends: bool): (Limiter, bool) {
    var entered := WithEntry(counted, r, ticket);
    var rank := ZRank(entered.owners, r.id);
    if rank == None || rank.value >= cfg.permitLimit then
      (WithoutEntry(if resends then WithEntry(Prefix(cfg, entered, r.now), r, ticket) else entered, r), false)
    else
      (entered, true)
  }

  /** One guard call; `resends` says that each batch repeats the commands of the earlier ones. */
  function Guard(cfg: Config, l: Limiter, r: Request, resends: bool): (Limiter, bool) {
    var once := Prefix(cfg, l, r.now);
    Judge(cfg, if resends then Prefix(cfg, once, r.now) else once, r, once.counter, resends)
  }

  /** A guard call draws one ticket, and one more for each time an earlier batch is sent again. */
  lemma TicketsDrawn(cfg: Config, l: Limiter, r: Request, resends: bool)
    ensures var (l', ok) := Guard(cfg, l, r, resends);
            l'.counter == l.counter + if !resends then 1 else if ok then 2 else 3
  {
  }

  /** Everything ever granted, with the time of the grant. */
  type Grants = map<Member, int>

  function InWindow(cfg: Config, g: Grants, t: int): set<Member> {
    set x | x in g && t - cfg.window < g[x] <= t
  }

  /** The rule: allow iff fewer than permitLimit grants lie in (now - window, now]. */
  function Naive(cfg: Config, g: Grants, r: Request): (Grants, bool) {
    if |InWindow(cfg, g, r.now)| < cfg.permitLimit then (g[r.id := r.now], true) else (g, false)
  }

  /** The store holds exactly the grants still in the window, under older tickets. */
  ghost predicate Represents(cfg: Config, l: Limiter, g: Grants, last: int) {
    && l.stamps.Keys == l.owners.Keys
    && (forall x | x in l.stamps :: x in g && l.stamps[x] == g[x])
    && (forall x | x in l.owners :: l.owners[x] <= l.counter)
    && (forall x | x in g :: g[x] <= last && (g[x] > last - cfg.window ==> x in l.stamps))
  }

  /** After the prefix the store holds exactly the grants in the current window. */
  lemma PrefixHoldsWindow(cfg: Config, l: Limiter, g: Grants, last: int, now: int)
    requires Represents(cfg, l, g, last) && last <= now
    ensures Represents(cfg, Prefix(cfg, l, now), g, now)
    ensures Prefix(cfg, l, now).owners.Keys == InWindow(cfg, g, now)
  {
  }

  lemma PrefixAgain(cfg: Config, l: Limiter, now: int)
    requires l.stamps.Keys == l.owners.Keys
    ensures var once := Prefix(cfg, l, now);
            var twice := Prefix(cfg, once, now);
            once.stamps == twice.stamps && once.owners == twice.owners
  {
    var once := Prefix(cfg, l, now);
    assert forall x | x in once.owners :: x in once.stamps && once.stamps[x] > now - cfg.window;
  }

  /** Withdrawing the entry, re-sent batches included, gives back the sets before it. */
  lemma WithdrawnEntry(cfg: Config, l: Limiter, r: Request, ticket: nat)
    requires l.stamps.Keys == l.owners.Keys && r.id !in l.stamps
    requires forall x | x in l.stamps :: l.stamps[x] > r.now - cfg.window
    ensures WithoutEntry(WithEntry(l, r, ticket), r) == l
    ensures var l' := WithoutEntry(WithEntry(Prefix(cfg, WithEntry(l, r, ticket), r.now), r, ticket), r);
            l'.stamps == l.stamps && l'.owners == l.owners && l'.counter == l.counter + 1
  {
  }

  lemma EntryRepresented(cfg: Config, l: Limiter, g: Grants, r: Request, ticket: nat)
    requires Represents(cfg, l, g, r.now) && ticket <= l.counter
    ensures Represents(cfg, WithEntry(l, r, ticket), g[r.id := r.now], r.now)
  {
  }

  lemma EntryRank(cfg: Config, l: Limiter, g: Grants, r: Request, ticket: nat)
    requires r.id !in g && l.owners.Keys == InWindow(cfg, g, r.now)
    requires forall x | x in l.owners :: l.owners[x] < ticket
    ensures ZRank(WithEntry(l, r, ticket).owners, r.id) == Some(|InWindow(cfg, g, r.now)|)
  {
    assert Ahead(WithEntry(l, r, ticket).owners, r.id) == InWindow(cfg, g, r.now);
  }

  /** The newest ticket ranks behind everything the window holds, so its rank is the window's count. */
  lemma JudgeRefinesNaive(cfg: Config, l: Limiter, g: Grants, r: Request, ticket: nat, resends: bool)
    requires Represents(cfg, l, g, r.now) && r.id !in g && l.owners.Keys == InWindow(cfg, g, r.now)
    requires ticket <= l.counter && forall x | x in l.owners :: l.owners[x] < ticket
    ensures var (l', ok) := Judge(cfg, l, r, ticket, resends);
            && ok == Naive(cfg, g, r).1
            && Represents(cfg, l', Naive(cfg, g, r).0, r.now)
            && (!ok ==> l'.stamps == l.stamps && l'.owners == l.owners)
  {
    EntryRank(cfg, l, g, r, ticket);
    if Naive(cfg, g, r).1 {
      EntryRepresented(cfg, l, g, r, ticket);
    } else {
      WithdrawnEntry(cfg, l, r, ticket);
    }
  }

  /** Each decision is the naive rule's, and a refused request leaves only the pruning behind. */
  lemma GuardRefinesNaive(cfg: Config, l: Limiter, g: Grants, last: int, r: Request, resends: bool)
    requires Represents(cfg, l, g, last) && r.now >= last && r.id !in g
    ensures var (l', ok) := Guard(cfg, l, r, resends);
            && ok == Naive(cfg, g, r).1
            && Represents(cfg, l', Naive(cfg, g, r).0, r.now)
            && (!ok ==> l'.stamps == Prefix(cfg, l, r.now).stamps && l'.owners == Prefix(cfg, l, r.now).owners)
  {
    var once := Prefix(cfg, l, r.now);
    PrefixHoldsWindow(cfg, l, g, last, r.now);
    PrefixHoldsWindow(cfg, once, g, r.now, r.now);
    PrefixAgain(cfg, l, r.now);
    assert forall x | x in once.owners :: once.owners[x] < once.counter;
    JudgeRefinesNaive(cfg, if resends then Prefix(cfg, once, r.now) else once, g, r, once.counter, resends);
  }

  /** Guard calls in order, with distinct identifiers and a clock that never goes back. */
  ghost predicate InOrder(reqs: seq<Request>) {
    forall i, j | 0 <= i < j < |reqs| :: reqs[i].now <= reqs[j].now && reqs[i].id != reqs[j].id
  }

  function Serve(cfg: Config, reqs: seq<Request>, resends: bool): (Limiter, seq<bool>) {
    if reqs == [] then
      (Limiter(map[], map[], 0), [])
    else
      var (l, oks) := Serve(cfg, reqs[..|reqs| - 1], resends);
      var (l', ok) := Guard(cfg, l, reqs[|reqs| - 1], resends);
      (l', oks + [ok])
  }

  function ServeNaively(cfg: Config, reqs: seq<Request>): (Grants, seq<bool>) {
    if reqs == [] then
      (map[], [])
    else
      var (g, oks) := ServeNaively(cfg, reqs[..|reqs| - 1]);
      var (g', ok) := Naive(cfg, g, reqs[|reqs| - 1]);
      (g', oks + [ok])
  }

  lemma {:induction false} GrantsComeFromRequests(cfg: Config, reqs: seq<Request>, x: Member)
    requires x in ServeNaively(cfg, reqs).0
    ensures exists i :: 0 <= i < |reqs| && reqs[i] == Request(x, ServeNaively(cfg, reqs).0[x])
  {
    var n := |reqs| - 1;
    var g := ServeNaively(cfg, reqs[..n]).0;
    if ServeNaively(cfg, reqs).0 != g && x == reqs[n].id {
      assert reqs[n] == Request(x, ServeNaively(cfg, reqs).0[x]);
    } else {
      GrantsComeFromRequests(cfg, reqs[..n], x);
      var i :| 0 <= i < n && reqs[..n][i] == Request(x, g[x]);
      assert reqs[i] == Request(x, g[x]);
    }
  }

  lemma {:induction false} ServeRepresents(cfg: Config, reqs: seq<Request>, resends: bool, last: int)
    requires InOrder(reqs) && (reqs != [] ==> last == reqs[|reqs| - 1].now)
    ensures Represents(cfg, Serve(cfg, reqs, resends).0, ServeNaively(cfg, reqs).0, last)
    ensures Serve(cfg, reqs, resends).1 == ServeNaively(cfg, reqs).1
  {
    if reqs != [] {
      var n := |reqs| - 1;
      var g := ServeNaively(cfg, reqs[..n]).0;
      var before := if n > 0 then reqs[n - 1].now else last;
      ServeRepresents(cfg, reqs[..n], resends, before);
      if reqs[n].id in g {
        GrantsComeFromRequests(cfg, reqs[..n], reqs[n].id);
        assert false;
      }
      GuardRefinesNaive(cfg, Serve(cfg, reqs[..n], resends).0, g, before, reqs[n], resends);
    }
  }

  /** The Redis limiter takes every decision of the naive rule. */
  lemma DecisionsAreNaive(cfg: Config, reqs: seq<Request>, resends: bool)
    requires InOrder(reqs)
    ensures Serve(cfg, reqs, resends).1 == ServeNaively(cfg, reqs).1
  {
    ServeRepresents(cfg, reqs, resends, if reqs == [] then 0 else reqs[|reqs| - 1].now);
  }

  lemma {:induction false} NaiveRateBound(cfg: Config, reqs: seq<Request>, t: int)
    requires InOrder(reqs)
    ensures InWindow(cfg, ServeNaively(cfg, reqs).0, t) == {}
         || |InWindow(cfg, ServeNaively(cfg, reqs).0, t)| <= cfg.permitLimit
  {
    if reqs != [] {
      var n := |reqs| - 1;
      var r := reqs[n];
      var g := ServeNaively(cfg, reqs[..n]).0;
      NaiveRateBound(cfg, reqs[..n], t);
      if Naive(cfg, g, r).1 && t - cfg.window < r.now <= t {
        forall x | x in InWindow(cfg, g[r.id := r.now], t) ensures x in InWindow(cfg, g, r.now) + {r.id} {
          if x != r.id {
            GrantsComeFromRequests(cfg, reqs[..n], x);
          }
        }
        Subset(InWindow(cfg, g[r.id := r.now], t), InWindow(cfg, g, r.now) + {r.id});
      } else {
        assert InWindow(cfg, ServeNaively(cfg, reqs).0, t) <= InWindow(cfg, g, t) by {
          if r.id in g {
            GrantsComeFromRequests(cfg, reqs[..n], r.id);
            assert false;
          }
        }
        Subset(InWindow(cfg, ServeNaively(cfg, reqs).0, t), InWindow(cfg, g, t));
      }
    }
  }

  /** The calls that were allowed with a clock reading in (t - window, t]. */
  function Allowed(cfg: Config, reqs: seq<Request>, oks: seq<bool>, t: int): set<nat>
    requires |oks| == |reqs|
  {
    set i: nat | i < |reqs| && oks[i] && t - cfg.window < reqs[i].now <= t
  }

  lemma AllowedSnoc(cfg: Config, reqs: seq<Request>, oks: seq<bool>, ok: bool, t: int)
    requires |reqs| == |oks| + 1
    ensures var n := |oks|;
            Allowed(cfg, reqs, oks + [ok], t)
            == Allowed(cfg, reqs[..n], oks, t) + if ok && t - cfg.window < reqs[n].now <= t then {n as nat} else {}
  {
  }

  lemma InWindowSnoc(cfg: Config, g: Grants, r: Request, ok: bool, t: int)
    requires r.id !in g
    ensures InWindow(cfg, if ok then g[r.id := r.now] else g, t)
         == InWindow(cfg, g, t) + if ok && t - cfg.window < r.now <= t then {r.id} else {}
  {
  }

  lemma {:induction false} AllowedAreGrants(cfg: Config, reqs: seq<Request>, t: int)
    requires InOrder(reqs)
    ensures |ServeNaively(cfg, reqs).1| == |reqs|
    ensures |Allowed(cfg, reqs, ServeNaively(cfg, reqs).1, t)| == |InWindow(cfg, ServeNaively(cfg, reqs).0, t)|
  {
    if reqs != [] {
      var n := |reqs| - 1;
      var r := reqs[n];
      var (g, oks) := ServeNaively(cfg, reqs[..n]);
      AllowedAreGrants(cfg, reqs[..n], t);
      if r.id in g {
        GrantsComeFromRequests(cfg, reqs[..n], r.id);
        assert false;
      }
      var ok := Naive(cfg, g, r).1;
      AllowedSnoc(cfg, reqs, oks, ok, t);
      InWindowSnoc(cfg, g, r, ok, t);
    }
  }

  /** For every T, the Redis limiter allows at most permitLimit calls with a clock in (T - window, T]. */
  lemma RateBound(cfg: Config, reqs: seq<Request>, resends: bool, t: int)
    requires InOrder(reqs)
    ensures |Serve(cfg, reqs, resends).1| == |reqs|
    ensures |Allowed(cfg, reqs, Serve(cfg, reqs, resends).1, t)| <= if cfg.permitLimit > 0 then cfg.permitLimit else 0
  {
    DecisionsAreNaive(cfg, reqs, resends);
    AllowedAreGrants(cfg, reqs, t);
    NaiveRateBound(cfg, reqs, t);
    if cfg.permitLimit <= 0 {
      NoPermitsNoGrants(cfg, reqs);
    }
  }

  lemma {:induction false} NoPermitsNoGrants(cfg: Config, reqs: seq<Request>)
    requires cfg.permitLimit <= 0
    ensures ServeNaively(cfg, reqs).0 == map[]
  {
    if reqs != [] {
      NoPermitsNoGrants(cfg, reqs[..|reqs| - 1]);
    }
  }

  lemma Subset<T>(a: set<T>, b: set<T>)
    requires a <= b
    ensures |a| <= |b|
  {
    assert b == a + (b - a);
  }

  class RateLimiterStrategy {
    const cache: Redis
    const key: string
    const config: Config
    const resends: bool

    constructor (cache: Redis, key: string, config: Config, resends: bool)
      ensures this.cache == cache && this.key == key && this.config == config && this.resends == resends
    {
      this.cache, this.key, this.config, this.resends := cache, key, config, resends;
    }

    ghost function View(): Limiter
      reads this, cache
    {
      Limiter(cache.Z(Base(key)), cache.Z(Owner(key)), cache.C(Counter(key)))
    }

    method QueuePrefix(now: int) returns (count: nat)
      modifies cache`zsets, cache`counters
      ensures View() == Prefix(config, old(View()), now) && count == View().counter
    {
      cache.ZRemRangeByScoreCmd(Base(key), None, now - config.window);
      cache.ZInterStoreCmd(Owner(key), Owner(key), Base(key), 1, 0);
      count := cache.IncrCmd(Counter(key));
    }

    method QueueEntry(r: Request, ticket: nat)
      modifies cache`zsets
      ensures View() == WithEntry(old(View()), r, ticket)
    {
      cache.ZAddCmd(Base(key), r.id, r.now);
      cache.ZAddCmd(Owner(key), r.id, ticket);
    }

    /** The removals of a refusal; a re-sent batch puts the entry back first. */
    method Withdraw(r: Request, ticket: nat)
      modifies cache`zsets, cache`counters
      ensures var before := old(View());
              View() == WithoutEntry(if resends then WithEntry(Prefix(config, before, r.now), r, ticket) else before, r)
    {
      if resends {
        var _ := QueuePrefix(r.now);
        QueueEntry(r, ticket);
      }
      cache.ZRemCmd(Base(key), r.id);
      cache.ZRemCmd(Owner(key), r.id);
    }

    method JudgeEntry(r: Request, ticket: nat) returns (allowed: bool)
      modifies cache`zsets, cache`counters
      ensures (View(), allowed) == Judge(config, old(View()), r, ticket, resends)
    {
      QueueEntry(r, ticket);
      var rank := cache.ZRankCmd(Owner(key), r.id);
      if rank == None || rank.value >= config.permitLimit {
        Withdraw(r, ticket);
        return false;
      }
      return true;
    }

    /** getRateWindow: grants the request iff the naive rule does. */
    method GetRateWindow(id: Member, ghost grants: Grants, ghost last: int) returns (allowed: bool)
      requires Represents(config, View(), grants, last) && last <= cache.clock && id !in grants
      modifies cache`zsets, cache`counters
      ensures (View(), allowed) == Guard(config, old(View()), Request(id, cache.clock), resends)
      ensures allowed <==> |InWindow(config, grants, cache.clock)| < config.permitLimit
      ensures Represents(config, View(), if allowed then grants[id := cache.clock] else grants, cache.clock)
    {
      var r := Request(id, cache.clock);
      GuardRefinesNaive(config, View(), grants, last, r, resends);
      var count := QueuePrefix(r.now);
      if resends {
        var _ := QueuePrefix(r.now);
      }
      allowed := JudgeEntry(r, count);
    }
  }
}
