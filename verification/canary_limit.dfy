/**
 * What the half-open limit does limit: of the canaries under way together on one bucket with a
 * recent failure, so many stay counted and no more.
 */
module CanaryLimit {
  import opened SortedSets
  import opened RedisStore
  import opened Circuit
  import opened CircuitCanary

  /** Counted in bucket b and not taken back. */
  predicate CountedOn(f: Frame, b: Member) {
    (f.Counted? || f.Passed?) && f.b == b
  }

  /** The canaries that have passed on bucket b. */
  function PassedOn(frames: map<Member, Frame>, b: Member): set<Member> {
    set c | c in frames && frames[c].Passed? && frames[c].b == b
  }

  /** The canary in place i was told at least `others` and everyone up to its place, or has passed within the limit. */
  predicate InPlace(cfg: Config, f: Frame, lastFailure: int, others: int, i: nat) {
    match f
    case Counted(_, inFlight, seen) => inFlight >= others + i + 1 && seen == lastFailure
    case Passed(_) => others + i + 1 <= cfg.halfOpenLimit
    case _ => false
  }

  /** The canaries counted in bucket b, in the order in which they came; `others` are in flight besides. */
  ghost predicate Lined(cfg: Config, s: State, frames: map<Member, Frame>, b: Member, others: int, line: seq<Member>) {
    && b < s.nextUid && Get(HashOf(s, b), InFlight) == others + |line|
    && (forall i, j | 0 <= i < j < |line| :: line[i] != line[j])
    && (forall c | c in frames && CountedOn(frames[c], b) :: c in line)
    && (forall i | 0 <= i < |line| :: line[i] in frames && CountedOn(frames[line[i]], b)
          && InPlace(cfg, frames[line[i]], Get(HashOf(s, b), LastFailure), others, i))
    && (forall c | c in frames && frames[c].Read? && frames[c].b == b ::
          frames[c].lastFailure == Get(HashOf(s, b), LastFailure))
  }

  function Without(line: seq<Member>, i: nat): seq<Member>
    requires i < |line|
  {
    line[..i] + line[i + 1..]
  }

  /** What a turn that leads canary frame f to g, and state s to t, does to bucket b's counters. */
  predicate OnBucket(cfg: Config, s: State, t: State, f: Frame, g: Frame, now: int, b: Member) {
    && b < t.nextUid && Get(HashOf(t, b), LastFailure) == Get(HashOf(s, b), LastFailure)
    && Get(HashOf(t, b), InFlight) == Get(HashOf(s, b), InFlight)
       + (if CountedOn(g, b) then 1 else 0) - (if CountedOn(f, b) then 1 else 0)
    && (g.Counted? && g.b == b ==> g.inFlight == Get(HashOf(t, b), InFlight) && f == Read(b, g.lastFailure))
    && (g.Passed? && g != f ==> f.Counted? && f.b == g.b && AllowCanary(cfg, f.inFlight, f.lastFailure, now))
    && (g.Read? && g.b == b ==> g.lastFailure == Get(HashOf(s, b), LastFailure))
  }

  lemma StepOnBucket(cfg: Config, s: State, f: Frame, now: int, b: Member)
    requires b < s.nextUid
    ensures var (t, g) := CanaryStep(cfg, s, f, now); OnBucket(cfg, s, t, f, g, now, b)
  {
  }

  function FrameIn(frames: map<Member, Frame>, c: Member): Frame {
    if c in frames then frames[c] else Gone
  }

  /** A canary that counts itself goes to the end of the line. */
  lemma LineGrows(cfg: Config, s: State, t: State, frames: map<Member, Frame>, b: Member, others: int,
                  line: seq<Member>, c: Member, g: Frame, now: int)
    requires Lined(cfg, s, frames, b, others, line) && OnBucket(cfg, s, t, FrameIn(frames, c), g, now, b)
    requires CountedOn(g, b) && !CountedOn(FrameIn(frames, c), b)
    ensures Lined(cfg, t, frames[c := g], b, others, line + [c])
  {
  }

  /** A canary that takes its count back lets those behind it move up. */
  lemma LineShrinks(cfg: Config, s: State, t: State, frames: map<Member, Frame>, b: Member, others: int,
                    line: seq<Member>, c: Member, g: Frame, now: int, i: nat)
    requires Lined(cfg, s, frames, b, others, line) && OnBucket(cfg, s, t, FrameIn(frames, c), g, now, b)
    requires !CountedOn(g, b) && CountedOn(FrameIn(frames, c), b) && i < |line| && line[i] == c
    ensures Lined(cfg, t, frames[c := g], b, others, Without(line, i))
  {
    var next, after := Without(line, i), frames[c := g];
    forall d | d in after && CountedOn(after[d], b) ensures d in next {
      var j :| 0 <= j < |line| && line[j] == d;
      assert next[if j < i then j else j - 1] == d;
    }
    forall j | 0 <= j < |next|
      ensures next[j] in after && CountedOn(after[next[j]], b)
      ensures InPlace(cfg, after[next[j]], Get(HashOf(t, b), LastFailure), others, j)
    {
      assert next[j] == line[if j < i then j else j + 1];
    }
  }

  /** Any other turn keeps the line; one that passes does so within the limit. */
  lemma LineStays(cfg: Config, s: State, t: State, frames: map<Member, Frame>, b: Member, others: int,
                  line: seq<Member>, c: Member, g: Frame, now: int)
    requires Lined(cfg, s, frames, b, others, line) && OnBucket(cfg, s, t, FrameIn(frames, c), g, now, b)
    requires now - cfg.interval <= Get(HashOf(s, b), LastFailure)
    requires CountedOn(g, b) <==> CountedOn(FrameIn(frames, c), b)
    ensures Lined(cfg, t, frames[c := g], b, others, line)
  {
    var after := frames[c := g];
    forall j | 0 <= j < |line|
      ensures line[j] in after && CountedOn(after[line[j]], b)
      ensures InPlace(cfg, after[line[j]], Get(HashOf(t, b), LastFailure), others, j)
    {
      assert InPlace(cfg, frames[line[j]], Get(HashOf(s, b), LastFailure), others, j);
    }
  }

  /** One turn of a canary while the bucket's failure is recent keeps the line. */
  lemma StepKeepsLine(cfg: Config, s: State, frames: map<Member, Frame>, b: Member, others: int, line: seq<Member>,
                      c: Member, now: int) returns (next: seq<Member>)
    requires Lined(cfg, s, frames, b, others, line) && now - cfg.interval <= Get(HashOf(s, b), LastFailure)
    ensures var (t, g) := CanaryStep(cfg, s, FrameIn(frames, c), now);
            Lined(cfg, t, frames[c := g], b, others, next)
  {
    var f := FrameIn(frames, c);
    var (t, g) := CanaryStep(cfg, s, f, now);
    StepOnBucket(cfg, s, f, now, b);
    if CountedOn(g, b) == CountedOn(f, b) {
      next := line;
      LineStays(cfg, s, t, frames, b, others, line, c, g, now);
    } else if CountedOn(g, b) {
      next := line + [c];
      LineGrows(cfg, s, t, frames, b, others, line, c, g, now);
    } else {
      var i :| 0 <= i < |line| && line[i] == c;
      next := Without(line, i);
      LineShrinks(cfg, s, t, frames, b, others, line, c, g, now, i);
    }
  }

  lemma {:induction false} TurnsKeepLine(
    cfg: Config, s: State, frames: map<Member, Frame>, b: Member, others: int, line: seq<Member>, turns: seq<Turn>)
    returns (last: seq<Member>)
    requires Lined(cfg, s, frames, b, others, line)
    requires forall i | 0 <= i < |turns| :: turns[i].at - cfg.interval <= Get(HashOf(s, b), LastFailure)
    ensures var (t, after) := Canaries(cfg, s, frames, turns); Lined(cfg, t, after, b, others, last)
    decreases |turns|
  {
    last := line;
    if turns != [] {
      var c := turns[0].c;
      var f := FrameIn(frames, c);
      var (t, g) := CanaryStep(cfg, s, f, turns[0].at);
      StepOnBucket(cfg, s, f, turns[0].at, b);
      var next := StepKeepsLine(cfg, s, frames, b, others, line, c, turns[0].at);
      last := TurnsKeepLine(cfg, t, frames[c := g], b, others, next, turns[1..]);
    }
  }

  /** Those that have passed stand within the limit, so they are not more than it leaves room for. */
  lemma {:induction false} FirstPlaces(line: seq<Member>, passed: set<Member>, room: nat)
    requires forall c | c in passed :: exists i :: 0 <= i < |line| && i < room && line[i] == c
    ensures |passed| <= room
    decreases room
  {
    if room > 0 && room <= |line| {
      var c := line[room - 1];
      forall d | d in passed - {c} ensures exists i :: 0 <= i < |line| && i < room - 1 && line[i] == d {
        var i :| 0 <= i < |line| && i < room && line[i] == d;
      }
      FirstPlaces(line, passed - {c}, room - 1);
    } else if room > 0 {
      forall d | d in passed ensures exists i :: 0 <= i < |line| && i < room - 1 && line[i] == d {
        var i :| 0 <= i < |line| && i < room && line[i] == d;
      }
      FirstPlaces(line, passed, room - 1);
    } else if c :| c in passed {
      assert false;
    }
  }

  /**
   * Whatever turns the canaries take while the bucket's failure is recent and no call leaves: those
   * that pass on it and the calls in flight before them are no more than the half-open limit.
   */
  lemma CanariesWithinLimit(cfg: Config, s: State, frames: map<Member, Frame>, b: Member, turns: seq<Turn>)
    requires b < s.nextUid && forall c | c in frames :: frames[c].Looking?
    requires forall i | 0 <= i < |turns| :: turns[i].at - cfg.interval <= Get(HashOf(s, b), LastFailure)
    ensures var passed := PassedOn(Canaries(cfg, s, frames, turns).1, b);
            passed != {} ==> Get(HashOf(s, b), InFlight) + |passed| <= cfg.halfOpenLimit
  {
    var others := Get(HashOf(s, b), InFlight);
    var after := Canaries(cfg, s, frames, turns).1;
    var line := TurnsKeepLine(cfg, s, frames, b, others, [], turns);
    var passed := PassedOn(after, b);
    if c :| c in passed {
      var i :| 0 <= i < |line| && line[i] == c;
      assert InPlace(cfg, after[c], Get(HashOf(Canaries(cfg, s, frames, turns).0, b), LastFailure), others, i);
      var room: nat := cfg.halfOpenLimit - others;
      forall d | d in passed ensures exists j :: 0 <= j < |line| && j < room && line[j] == d {
        var j :| 0 <= j < |line| && line[j] == d;
        assert after[line[j]].Passed?;
      }
      FirstPlaces(line, passed, room);
    }
  }

  /**
   * Left alone, a canary that has found its bucket passes exactly if it fits under the limit or the
   * bucket's failure is old; else it takes its count back and counts a rejection.
   */
  lemma LoneCanary(cfg: Config, s: State, b: Member, now: int)
    ensures var h := HashOf(s, b);
            var fits := Get(h, InFlight) + 1 <= cfg.halfOpenLimit || Get(h, LastFailure) < now - cfg.interval;
            var (s1, f1) := CanaryStep(cfg, s, Found(b), now);
            var (s2, f2) := CanaryStep(cfg, s1, f1, now);
            var (s3, f3) := CanaryStep(cfg, s2, f2, now);
            var (t, f) := CanaryStep(cfg, s3, f3, now);
            && f == (if fits then Passed(b) else TurnedAway)
            && Get(HashOf(t, b), InFlight) == Get(h, InFlight) + (if fits then 1 else 0)
            && Get(HashOf(t, b), Rejection) == Get(h, Rejection) + (if fits then 0 else 1)
            && Get(HashOf(t, b), LastFailure) == Get(h, LastFailure)
  {
  }
}
