/** Redis sorted sets as values: members with scores, ranked by (score, member). */
module SortedSets {
  datatype Option<+T> = None | Some(value: T)

  /** Members are numbered in the byte order by which Redis breaks ties between equal scores. */
  type Member = nat

  /** Scores are integers, in a time unit fine enough for every configured delay. */
  type ZSet = map<Member, int>

  /** The (score, member) order. */
  predicate Before(s: int, x: Member, t: int, y: Member) {
    s < t || (s == t && x < y)
  }

  /** The members 1..m. */
  function FirstIds(m: nat): (ids: set<Member>)
    ensures |ids| == m
    ensures forall c :: c in ids <==> 1 <= c <= m
  {
    if m == 0 then {} else FirstIds(m - 1) + {m}
  }

  function ZAdd(z: ZSet, x: Member, score: int): ZSet {
    z[x := score]
  }

  function ZRem(z: ZSet, x: Member): ZSet {
    z - {x}
  }

  /** ZREMRANGEBYSCORE with inclusive bounds; a lower bound of None is -inf. */
  function ZRemRangeByScore(z: ZSet, lo: Option<int>, hi: int): ZSet {
    map x | x in z && !((lo == None || lo.value <= z[x]) && z[x] <= hi) :: z[x]
  }

  /** ZINTERSTORE of two sets with WEIGHTS [v, w] and the default SUM aggregate. */
  function ZInterStore(a: ZSet, b: ZSet, v: int, w: int): ZSet {
    map x | x in a && x in b :: v * a[x] + w * b[x]
  }

  /** The members that precede x. */
  function Ahead(z: ZSet, x: Member): set<Member>
    requires x in z
  {
    set y | y in z && Before(z[y], y, z[x], x)
  }

  /** ZRANK: the zero-based rank, or None for a missing member. */
  function ZRank(z: ZSet, x: Member): Option<nat> {
    if x in z then Some(|Ahead(z, x)|) else None
  }

  /** A member with its score, as ZRANGE ... WITHSCORES reports it. */
  datatype Entry = Entry(member: Member, score: int)

  /** The first member of a non-empty sorted set. */
  predicate IsFirst(z: ZSet, x: Member) {
    x in z && forall y | y in z && y != x :: Before(z[x], x, z[y], y)
  }

  lemma FirstExists(z: ZSet)
    requires z != map[]
    ensures exists x :: IsFirst(z, x)
  {
    var y :| y in z;
    var rest := z - {y};
    if rest == map[] {
      assert forall x | x in z && x != y :: x in rest;
      assert IsFirst(z, y);
    } else {
      FirstExists(rest);
      var f :| IsFirst(rest, f);
      assert forall x | x in z && x != y :: x in rest;
      assert IsFirst(z, if Before(z[f], f, z[y], y) then f else y);
    }
  }

  /** What ZRANGEBYSCORE -inf..hi LIMIT 0 count reports: the first `count` members, in order. */
  ghost predicate IsZRange(z: ZSet, hi: int, count: nat, r: seq<Entry>) {
    && |r| <= count
    && (forall i | 0 <= i < |r| :: r[i].member in z && z[r[i].member] == r[i].score <= hi)
    && (forall i, j | 0 <= i < j < |r| :: Before(r[i].score, r[i].member, r[j].score, r[j].member))
    && (forall x | x in z && z[x] <= hi ::
          || (exists i :: 0 <= i < |r| && r[i].member == x)
          || (|r| == count && forall i | 0 <= i < |r| :: Before(r[i].score, r[i].member, z[x], x)))
  }

  /** ZRANGEBYSCORE by repeatedly taking the first member. */
  function ZRange(z: ZSet, hi: int, count: nat): (r: seq<Entry>)
    ensures IsZRange(z, hi, count, r)
    decreases |z|
  {
    if count == 0 || z == map[] then
      []
    else
      FirstExists(z);
      var x :| IsFirst(z, x);
      if z[x] > hi then
        []
      else
        assert (z - {x}).Keys == z.Keys - {x};
        var rest := ZRange(z - {x}, hi, count - 1);
        ZRangeCons(z, hi, count, x, rest);
        [Entry(x, z[x])] + rest
  }

  lemma ZRangeCons(z: ZSet, hi: int, count: nat, x: Member, rest: seq<Entry>)
    requires count > 0 && IsFirst(z, x) && z[x] <= hi
    requires IsZRange(z - {x}, hi, count - 1, rest)
    ensures IsZRange(z, hi, count, [Entry(x, z[x])] + rest)
  {
    var r := [Entry(x, z[x])] + rest;
    forall y | y in z && z[y] <= hi
      ensures || (exists i :: 0 <= i < |r| && r[i].member == y)
              || (|r| == count && forall i | 0 <= i < |r| :: Before(r[i].score, r[i].member, z[y], y))
    {
      if y == x {
        assert r[0].member == y;
      } else {
        assert y in z - {x};
        if i :| 0 <= i < |rest| && rest[i].member == y {
          assert r[i + 1].member == y;
        }
      }
    }
  }

  /** The last member among those with scores in lo..hi. */
  predicate IsNewest(z: ZSet, lo: int, hi: int, x: Member) {
    && x in z && lo <= z[x] <= hi
    && forall y | y in z && lo <= z[y] <= hi && y != x :: Before(z[y], y, z[x], x)
  }

  lemma {:induction false} NewestExists(z: ZSet, lo: int, hi: int, y: Member)
    requires y in z && lo <= z[y] <= hi
    ensures exists x :: IsNewest(z, lo, hi, x)
    decreases |z|
  {
    if !IsNewest(z, lo, hi, y) {
      var other :| other in z && lo <= z[other] <= hi && other != y && !Before(z[other], other, z[y], y);
      var rest := z - {y};
      assert rest.Keys == z.Keys - {y};
      NewestExists(rest, lo, hi, other);
      var x :| IsNewest(rest, lo, hi, x);
      assert forall w | w in z && w != y :: w in rest;
      assert IsNewest(z, lo, hi, x);
    }
  }

  /** ZRANGE hi lo BYSCORE REV LIMIT 0 1. */
  ghost function NewestIn(z: ZSet, lo: int, hi: int): (r: Option<Member>)
    ensures r == None <==> forall x | x in z :: !(lo <= z[x] <= hi)
    ensures r != None ==> IsNewest(z, lo, hi, r.value)
  {
    if y :| y in z && lo <= z[y] <= hi then
      NewestExists(z, lo, hi, y);
      var x :| IsNewest(z, lo, hi, x);
      Some(x)
    else
      None
  }
}

/** The shared store: one object that every client's commands update in place. */
module RedisStore {
  import opened SortedSets

  /** Key names; the key builders are taken to be injective. */
  datatype Key =
    | Base(name: string)
    | Owner(name: string)
    | Counter(name: string)
    | Registry
    | Timeseries(name: string)
    | Item(id: Member)

  /** The counters and stamps kept in a bucket's hash. */
  datatype Field = InFlight | Success | Failure | Rejection | LastFailure

  type Hash = map<Field, int>

  /** A string, or a hash of one counter, with the time at which it disappears. */
  datatype Cell = Cell(value: int, expiry: Option<int>)

  class Redis {
    var clock: int
    var zsets: map<Key, ZSet>
    var counters: map<Key, nat>
    var hashes: map<Member, Hash>
    var cells: map<Key, Cell>

    constructor ()
      ensures zsets == map[] && counters == map[] && hashes == map[] && cells == map[] && clock == 0
    {
      clock, zsets, counters, hashes, cells := 0, map[], map[], map[], map[];
    }

    /** A missing key reads as the empty sorted set. */
    function Z(k: Key): ZSet
      reads this
    {
      if k in zsets then zsets[k] else map[]
    }

    /** A missing counter reads as zero. */
    function C(k: Key): nat
      reads this
    {
      if k in counters then counters[k] else 0
    }

    /** A cell whose expiry has been reached reads as missing. */
    function Live(k: Key): Option<Cell>
      reads this
    {
      if k !in cells || (cells[k].expiry != None && cells[k].expiry.value <= clock) then None else Some(cells[k])
    }

    method Tick(d: nat)
      modifies this`clock
      ensures clock == old(clock) + d
    {
      clock := clock + d;
    }

    method ZAddCmd(k: Key, x: Member, score: int)
      modifies this`zsets
      ensures zsets == old(zsets)[k := ZAdd(old(Z(k)), x, score)]
    {
      zsets := zsets[k := ZAdd(Z(k), x, score)];
    }

    method ZRemCmd(k: Key, x: Member)
      modifies this`zsets
      ensures zsets == old(zsets)[k := ZRem(old(Z(k)), x)]
    {
      zsets := zsets[k := ZRem(Z(k), x)];
    }

    method ZRemRangeByScoreCmd(k: Key, lo: Option<int>, hi: int)
      modifies this`zsets
      ensures zsets == old(zsets)[k := ZRemRangeByScore(old(Z(k)), lo, hi)]
    {
      zsets := zsets[k := ZRemRangeByScore(Z(k), lo, hi)];
    }

    method ZInterStoreCmd(dest: Key, a: Key, b: Key, v: int, w: int)
      modifies this`zsets
      ensures zsets == old(zsets)[dest := ZInterStore(old(Z(a)), old(Z(b)), v, w)]
    {
      zsets := zsets[dest := ZInterStore(Z(a), Z(b), v, w)];
    }

    method IncrCmd(k: Key) returns (n: nat)
      modifies this`counters
      ensures n == old(C(k)) + 1
      ensures counters == old(counters)[k := n]
    {
      n := C(k) + 1;
      counters := counters[k := n];
    }

    method ZRankCmd(k: Key, x: Member) returns (rank: Option<nat>)
      ensures rank == ZRank(Z(k), x)
    {
      rank := ZRank(Z(k), x);
    }

    /** ZRANGE -inf hi BYSCORE LIMIT 0 count WITHSCORES. */
    method ZRangeByScoreCmd(k: Key, hi: int, count: nat) returns (r: seq<Entry>)
      ensures r == ZRange(Z(k), hi, count)
    {
      r := ZRange(Z(k), hi, count);
    }

    /** ZRANGE hi lo BYSCORE REV LIMIT 0 1. */
    method ZNewestCmd(k: Key, lo: int, hi: int) returns (r: Option<Member>)
      ensures r == NewestIn(Z(k), lo, hi)
    {
      var z := Z(k);
      if x :| x in z && IsNewest(z, lo, hi, x) {
        return Some(x);
      }
      return None;
    }

    /** HINCRBY. */
    method HIncrByCmd(k: Member, f: Field, d: int) returns (n: int)
      modifies this`hashes
      ensures n == Get(HashAt(old(hashes), k), f) + d
      ensures hashes == old(hashes)[k := HashAt(old(hashes), k)[f := n]]
    {
      n := Get(HashAt(hashes, k), f) + d;
      hashes := hashes[k := HashAt(hashes, k)[f := n]];
    }

    method HSetCmd(k: Member, h: Hash)
      modifies this`hashes
      ensures hashes == old(hashes)[k := HashAt(old(hashes), k) + h]
    {
      hashes := hashes[k := HashAt(hashes, k) + h];
    }

    method GetCmd(k: Key) returns (v: Option<int>)
      ensures v == if Live(k) == None then None else Some(Live(k).value.value)
    {
      v := if Live(k) == None then None else Some(cells[k].value);
    }

    /** SET PX. */
    method SetPxCmd(k: Key, v: int, px: int)
      modifies this`cells
      ensures cells == old(cells)[k := Cell(v, Some(clock + px))]
    {
      cells := cells[k := Cell(v, Some(clock + px))];
    }

    /** SET NX PX. */
    method SetNxPxCmd(k: Key, v: int, px: int) returns (ok: bool)
      modifies this`cells
      ensures ok <==> old(Live(k)) == None
      ensures cells == if ok then old(cells)[k := Cell(v, Some(clock + px))] else old(cells)
    {
      ok := Live(k) == None;
      if ok {
        cells := cells[k := Cell(v, Some(clock + px))];
      }
    }

    /** EXPIRE: the argument is in seconds; a key that is not there stays missing. */
    method ExpireCmd(k: Key, seconds: int)
      modifies this`cells
      ensures cells == if old(Live(k)) == None then old(cells)
                       else if seconds <= 0 then old(cells) - {k}
                       else old(cells)[k := old(cells[k]).(expiry := Some(clock + 1000 * seconds))]
    {
      if Live(k) != None {
        cells := if seconds <= 0 then cells - {k} else cells[k := cells[k].(expiry := Some(clock + 1000 * seconds))];
      }
    }

    method ExistsCmd(k: Key) returns (b: bool)
      ensures b <==> Live(k) != None
    {
      b := Live(k) != None;
    }

    /** HSET of the one counter keeps the time to live. */
    method HSetCellCmd(k: Key, v: int)
      modifies this`cells
      ensures cells == old(cells)[k := Cell(v, if old(Live(k)) == None then None else old(cells[k]).expiry)]
    {
      cells := cells[k := Cell(v, if Live(k) == None then None else cells[k].expiry)];
    }

    /** HINCRBY 1 of the one counter; a missing one is created without a time to live. */
    method HIncrCellCmd(k: Key) returns (n: int)
      modifies this`cells
      ensures n == if old(Live(k)) == None then 1 else old(cells[k]).value + 1
      ensures cells == old(cells)[k := if old(Live(k)) == None then Cell(1, None) else Cell(n, old(cells[k]).expiry)]
    {
      n := if Live(k) == None then 1 else cells[k].value + 1;
      cells := cells[k := if Live(k) == None then Cell(1, None) else Cell(n, cells[k].expiry)];
    }

    method DelCmd(ks: set<Key>)
      modifies this`cells
      ensures cells == old(cells) - ks
    {
      cells := cells - ks;
    }
  }

  /** A missing field reads as zero. */
  function Get(h: Hash, f: Field): int {
    if f in h then h[f] else 0
  }

  /** A missing hash reads as empty. */
  function HashAt(hashes: map<Member, Hash>, k: Member): Hash {
    if k in hashes then hashes[k] else map[]
  }
}
