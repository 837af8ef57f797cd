/**
 * The counters of all buckets added up: what one call of the breaker, and what the canaries nobody
 * waits for, add to each of them.
 */
module CircuitLedger {
  import opened SortedSets
  import opened RedisStore
  import opened Circuit
  import CircuitCanary

  // ---------------------------------------------------------------- totals

  function TotalTo(hashes: map<Member, Hash>, f: Field, n: nat): int {
    if n == 0 then 0 else TotalTo(hashes, f, n - 1) + Get(HashAt(hashes, n - 1), f)
  }

  /** One counter over all buckets ever created. */
  function Total(s: State, f: Field): int {
    TotalTo(s.hashes, f, s.nextUid)
  }

  predicate IdsKnown(s: State) {
    forall x | x in s.timeline :: x < s.nextUid
  }

  lemma {:induction false} TotalOfOneMore(hashes: map<Member, Hash>, b: Member, h: Hash, f: Field, n: nat)
    ensures TotalTo(hashes[b := h], f, n)
         == TotalTo(hashes, f, n) + if b < n then Get(h, f) - Get(HashAt(hashes, b), f) else 0
  {
    if n > 0 {
      TotalOfOneMore(hashes, b, h, f, n - 1);
    }
  }

  // ---------------------------------------------------------------- the background's share

  function Buckets(evs: seq<Background>): nat {
    if evs == [] then 0 else (if evs[0].NewBucket? then 1 else 0) + Buckets(evs[1..])
  }

  /** What a list of background events adds to a counter; a bucket nobody has created yet does not count. */
  function Net(evs: seq<Background>, next: Member, f: Field): int
    decreases |evs|
  {
    if evs == [] then 0
    else
      match evs[0]
      case NewBucket(_) => Net(evs[1..], next + 1, f)
      case InFlightMoved(b, d) => (if f == InFlight && b < next then d else 0) + Net(evs[1..], next, f)
      case Rejected(b) => (if f == Rejection && b < next then 1 else 0) + Net(evs[1..], next, f)
  }

  /** From s to t a counter's total moves by `own`, besides what the background did. */
  predicate Moves(s: State, t: State, evs: seq<Background>, f: Field, own: int) {
    && IdsKnown(t) && t.nextUid == s.nextUid + Buckets(evs)
    && Total(t, f) == Total(s, f) + Net(evs, s.nextUid, f) + own
  }

  lemma {:induction false} NetOfBoth(xs: seq<Background>, ys: seq<Background>, next: Member, f: Field)
    ensures Buckets(xs + ys) == Buckets(xs) + Buckets(ys)
    ensures Net(xs + ys, next, f) == Net(xs, next, f) + Net(ys, next + Buckets(xs), f)
    decreases |xs|
  {
    if xs == [] {
      assert xs + ys == ys;
    } else {
      assert (xs + ys)[1..] == xs[1..] + ys;
      NetOfBoth(xs[1..], ys, if xs[0].NewBucket? then next + 1 else next, f);
    }
  }

  lemma MovesOn(s: State, t: State, u: State, xs: seq<Background>, ys: seq<Background>, f: Field, a: int, b: int)
    requires Moves(s, t, xs, f, a) && Moves(t, u, ys, f, b)
    ensures Moves(s, u, xs + ys, f, a + b)
  {
    NetOfBoth(xs, ys, s.nextUid, f);
  }

  lemma IncrementMoves(s: State, b: Member, g: Field, d: int, f: Field)
    requires IdsKnown(s) && b < s.nextUid
    ensures Moves(s, Incremented(s, b, g, d), [], f, if f == g then d else 0)
  {
    TotalOfOneMore(s.hashes, b, HashOf(s, b)[g := Get(HashOf(s, b), g) + d], f, s.nextUid);
  }

  /** A fresh bucket adds nothing to any counter. */
  lemma CreationMoves(s: State, at: int, f: Field)
    requires IdsKnown(s)
    ensures Moves(s, Created(s, at), [NewBucket(at)], f, 0) && Total(Created(s, at), f) == Total(s, f)
  {
    TotalOfOneMore(s.hashes, s.nextUid, FreshHash, f, s.nextUid);
    assert Buckets([NewBucket(at)]) == 1 + Buckets([]);
  }

  lemma DisturbanceMoves(s: State, e: Background, f: Field)
    requires IdsKnown(s)
    ensures Moves(s, Disturbance(s, e), [e], f, 0)
  {
    match e
    case NewBucket(at) => CreationMoves(s, at, f);
    case InFlightMoved(b, d) =>
      TotalOfOneMore(s.hashes, b, HashOf(s, b)[InFlight := Get(HashOf(s, b), InFlight) + d], f, s.nextUid);
    case Rejected(b) =>
      TotalOfOneMore(s.hashes, b, HashOf(s, b)[Rejection := Get(HashOf(s, b), Rejection) + 1], f, s.nextUid);
  }

  /** The background's own share is all that it moves. */
  lemma {:induction false} BackgroundMoves(s: State, evs: seq<Background>, f: Field)
    requires IdsKnown(s)
    ensures Moves(s, Disturbed(s, evs), evs, f, 0) && Disturbed(s, evs).mode == s.mode
    decreases |evs|
  {
    if evs != [] {
      var s1 := Disturbance(s, evs[0]);
      DisturbanceMoves(s, evs[0], f);
      BackgroundMoves(s1, evs[1..], f);
      MovesOn(s, s1, Disturbed(s, evs), [evs[0]], evs[1..], f, 0, 0);
      assert [evs[0]] + evs[1..] == evs;
    }
  }

  // ---------------------------------------------------------------- the background of one call

  /** The background events a lookup meets, the buckets it creates among them. */
  ghost function LookupHeard(cfg: Config, s: State, attempt: nat, rs: seq<Reading>): seq<Background>
    requires |rs| >= cfg.retries
    decreases cfg.retries - attempt
  {
    if attempt >= cfg.retries then
      []
    else
      var r := rs[attempt];
      var s1 := Disturbed(s, r.before);
      if ActiveAt(cfg, s1, r.look) != None then
        r.before
      else
        r.before + r.between + [NewBucket(r.create)]
        + LookupHeard(cfg, Created(Disturbed(s1, r.between), r.create), attempt + 1, rs)
  }

  ghost predicate Finds(cfg: Config, s: State, rs: seq<Reading>)
    requires |rs| >= cfg.retries
  {
    ActiveBucket(cfg, s, 0, rs).1 != None
  }

  ghost function OpenHeard(cfg: Config, s: State, call: Call): seq<Background>
    requires |call.gate| >= cfg.retries
  {
    if ActiveAt(cfg, s, call.gateAt) != None then [] else CountHeard(cfg, s.(mode := HalfOpen), call.gate, call.probing)
  }

  ghost function GateHeard(cfg: Config, s: State, call: Call): seq<Background>
    requires |call.gate| >= cfg.retries
  {
    call.idle +
    match s.mode
    case Closed => LookupHeard(cfg, Disturbed(s, call.idle), 0, call.gate)
    case HalfOpen => []
    case Open => OpenHeard(cfg, Disturbed(s, call.idle), call)
  }

  /** A lookup, and if it finds a bucket, what goes on before the counting. */
  ghost function CountHeard(cfg: Config, s: State, rs: seq<Reading>, evs: seq<Background>): seq<Background>
    requires |rs| >= cfg.retries
  {
    LookupHeard(cfg, s, 0, rs) + if Finds(cfg, s, rs) then evs else []
  }

  ghost function RecordHeard(cfg: Config, s: State, call: Call): seq<Background>
    requires |call.outcome| >= cfg.retries && |call.recovery| >= cfg.retries
  {
    CountHeard(cfg, s, call.outcome, call.recording) +
    if call.ok && !Finds(cfg, s, call.outcome)
    then CountHeard(cfg, ActiveBucket(cfg, s, 0, call.outcome).0, call.recovery, call.recovering) else []
  }

  ghost function ServeHeard(cfg: Config, s: State, call: Call): seq<Background>
    requires Complete(cfg, call)
  {
    var (s1, gate) := Enter(cfg, s, call);
    GateHeard(cfg, s, call) +
    if gate == Pass then RecordHeard(cfg, s1, call) + LookupHeard(cfg, Record(cfg, s1, call).0, 0, call.final) else []
  }

  // ---------------------------------------------------------------- the call's own share

  /** A lookup moves no counter. */
  lemma {:induction false} LookupMoves(cfg: Config, s: State, attempt: nat, rs: seq<Reading>, f: Field)
    requires |rs| >= cfg.retries && IdsKnown(s)
    ensures var (t, b) := ActiveBucket(cfg, s, attempt, rs);
            && Moves(s, t, LookupHeard(cfg, s, attempt, rs), f, 0) && t.mode == s.mode
            && (b != None ==> b.value in t.timeline && b.value < t.nextUid)
    decreases cfg.retries - attempt
  {
    if attempt < cfg.retries {
      var r := rs[attempt];
      var s1 := Disturbed(s, r.before);
      BackgroundMoves(s, r.before, f);
      if ActiveAt(cfg, s1, r.look) == None {
        var s2 := Disturbed(s1, r.between);
        var s3 := Created(s2, r.create);
        BackgroundMoves(s1, r.between, f);
        CreationMoves(s2, r.create, f);
        LookupMoves(cfg, s3, attempt + 1, rs, f);
        MovesOn(s, s1, s2, r.before, r.between, f, 0, 0);
        MovesOn(s, s2, s3, r.before + r.between, [NewBucket(r.create)], f, 0, 0);
        MovesOn(s, s3, ActiveBucket(cfg, s3, attempt + 1, rs).0, r.before + r.between + [NewBucket(r.create)],
                LookupHeard(cfg, s3, attempt + 1, rs), f, 0, 0);
      }
    }
  }

  /** A call counts itself in flight as it passes a closed gate, and nothing else. */
  lemma PassClosedMoves(cfg: Config, s: State, call: Call, f: Field)
    requires |call.gate| >= cfg.retries && IdsKnown(s)
    ensures var (t, gate) := PassClosed(cfg, s, call);
            && Moves(s, t, LookupHeard(cfg, s, 0, call.gate), f, if f == InFlight && gate == Pass then 1 else 0)
            && gate == (if Finds(cfg, s, call.gate) then Pass else Broken) && t.mode == s.mode
  {
    var (s1, b) := ActiveBucket(cfg, s, 0, call.gate);
    LookupMoves(cfg, s, 0, call.gate, f);
    if b != None {
      IncrementMoves(s1, b.value, InFlight, 1, f);
      var heard := LookupHeard(cfg, s, 0, call.gate);
      MovesOn(s, s1, Incremented(s1, b.value, InFlight, 1), heard, [], f, 0, if f == InFlight then 1 else 0);
      assert heard + [] == heard;
    }
  }

  /** An awaited canary stays counted if it is let through; turned away it is counted as a rejection instead. */
  lemma CanaryMoves(cfg: Config, s: State, call: Call, f: Field)
    requires |call.gate| >= cfg.retries && IdsKnown(s)
    ensures var (t, gate) := Canary(cfg, s, call);
            && Moves(s, t, CountHeard(cfg, s, call.gate, call.probing), f,
                     if (f == InFlight && gate == Pass) || (f == Rejection && gate == Stop) then 1 else 0)
            && (gate == Broken <==> !Finds(cfg, s, call.gate)) && t.mode == s.mode
  {
    var (s1, b) := ActiveBucket(cfg, s, 0, call.gate);
    var heard := LookupHeard(cfg, s, 0, call.gate);
    LookupMoves(cfg, s, 0, call.gate, f);
    if b == None {
      assert heard + [] == heard;
    } else {
      var s2 := Disturbed(s1, call.probing);
      BackgroundMoves(s1, call.probing, f);
      MovesOn(s, s1, s2, heard, call.probing, f, 0, 0);
      JudgedMoves(cfg, s2, b.value, Get(HashOf(s1, b.value), LastFailure), call.canaryAt, f);
      var (t, gate) := Canary(cfg, s, call);
      MovesOn(s, s2, t, heard + call.probing, [], f, 0,
              if (f == InFlight && gate == Pass) || (f == Rejection && gate == Stop) then 1 else 0);
      assert heard + call.probing + [] == heard + call.probing;
    }
  }

  /** The canary's commands once it has read its bucket. */
  ghost function Judged(cfg: Config, s: State, b: Member, lastFailure: int, now: int): (State, Gate) {
    var t := Incremented(s, b, InFlight, 1);
    if AllowCanary(cfg, Get(HashOf(t, b), InFlight), lastFailure, now) then (t, Pass)
    else (Incremented(Incremented(t, b, InFlight, -1), b, Rejection, 1), Stop)
  }

  lemma JudgedMoves(cfg: Config, s: State, b: Member, lastFailure: int, now: int, f: Field)
    requires IdsKnown(s) && b < s.nextUid
    ensures var (t, gate) := Judged(cfg, s, b, lastFailure, now);
            Moves(s, t, [], f, if (f == InFlight && gate == Pass) || (f == Rejection && gate == Stop) then 1 else 0)
  {
    var t := Incremented(s, b, InFlight, 1);
    IncrementMoves(s, b, InFlight, 1, f);
    IncrementMoves(t, b, InFlight, -1, f);
    IncrementMoves(Incremented(t, b, InFlight, -1), b, Rejection, 1, f);
  }

  /** Refused in the open window, with one rejection; after it the canary decides. */
  lemma PassOpenMoves(cfg: Config, s: State, call: Call, f: Field)
    requires |call.gate| >= cfg.retries && IdsKnown(s)
    ensures var (t, gate) := PassOpen(cfg, s, call);
            && Moves(s, t, OpenHeard(cfg, s, call), f,
                     if (f == InFlight && gate == Pass) || (f == Rejection && gate == Stop) then 1 else 0)
            && t.mode == (if ActiveAt(cfg, s, call.gateAt) == None then HalfOpen else s.mode)
  {
    var b := ActiveAt(cfg, s, call.gateAt);
    if b == None {
      CanaryMoves(cfg, s.(mode := HalfOpen), call, f);
    } else {
      IncrementMoves(s, b.value, Rejection, 1, f);
    }
  }

  /** Only the end of the open window changes the mode at the gate. */
  ghost function ModeAfterGate(cfg: Config, s: State, call: Call): Mode {
    if s.mode == Open && ActiveAt(cfg, Disturbed(s, call.idle), call.gateAt) == None then HalfOpen else s.mode
  }

  /**
   * The gate: one more in flight if the call is let through from closed or after the open window,
   * nothing at all if it goes straight through half-open, one rejection if it is refused.
   */
  lemma EnterMoves(cfg: Config, s: State, call: Call, f: Field)
    requires |call.gate| >= cfg.retries && IdsKnown(s)
    ensures var (t, gate) := Enter(cfg, s, call);
            && Moves(s, t, GateHeard(cfg, s, call), f,
                     if (f == InFlight && gate == Pass && s.mode != HalfOpen) || (f == Rejection && gate == Stop)
                     then 1 else 0)
            && (s.mode == HalfOpen ==> gate == Pass) && (gate == Stop ==> s.mode == Open)
            && t.mode == ModeAfterGate(cfg, s, call)
  {
    var s1 := Disturbed(s, call.idle);
    var t := Enter(cfg, s, call).0;
    BackgroundMoves(s, call.idle, f);
    match s.mode {
      case Closed =>
        PassClosedMoves(cfg, s1, call, f);
        var gate := PassClosed(cfg, s1, call).1;
        MovesOn(s, s1, t, call.idle, LookupHeard(cfg, s1, 0, call.gate), f, 0,
                if f == InFlight && gate == Pass then 1 else 0);
      case HalfOpen =>
        assert call.idle + [] == call.idle;
      case Open =>
        PassOpenMoves(cfg, s1, call, f);
        var gate := PassOpen(cfg, s1, call).1;
        MovesOn(s, s1, t, call.idle, OpenHeard(cfg, s1, call), f, 0,
                if (f == InFlight && gate == Pass) || (f == Rejection && gate == Stop) then 1 else 0);
    }
  }

  /** A failure is counted once if a bucket is found for it, and opens the breaker if it trips. */
  lemma CountFailureMoves(cfg: Config, s: State, rs: seq<Reading>, evs: seq<Background>, at: int, f: Field)
    requires |rs| >= cfg.retries && IdsKnown(s) && f != LastFailure
    ensures var (t, trips) := CountFailure(cfg, s, rs, evs, at);
            && Moves(s, t, CountHeard(cfg, s, rs, evs), f, if f == Failure && trips != None then 1 else 0)
            && (trips != None <==> Finds(cfg, s, rs)) && t.mode == if trips == Some(true) then Open else s.mode
  {
    var (s1, b) := ActiveBucket(cfg, s, 0, rs);
    var heard := LookupHeard(cfg, s, 0, rs);
    LookupMoves(cfg, s, 0, rs, f);
    if b == None {
      assert heard + [] == heard;
    } else {
      var s2 := Disturbed(s1, evs);
      BackgroundMoves(s1, evs, f);
      FailedMoves(s2, b.value, at, f);
      MovesOn(s, s1, s2, heard, evs, f, 0, 0);
      MovesOn(s, s2, Failed(s2, b.value, at), heard + evs, [], f, 0, if f == Failure then 1 else 0);
      assert heard + evs + [] == heard + evs;
    }
  }

  lemma FailedMoves(s: State, b: Member, at: int, f: Field)
    requires IdsKnown(s) && b < s.nextUid && f != LastFailure
    ensures Moves(s, Failed(s, b, at), [], f, if f == Failure then 1 else 0)
  {
    var t := Incremented(s, b, Failure, 1);
    IncrementMoves(s, b, Failure, 1, f);
    TotalOfOneMore(t.hashes, b, HashOf(t, b)[LastFailure := at], f, s.nextUid);
  }

  /** Whether a call's outcome ends up counted as a failure. */
  ghost predicate FailureCounted(cfg: Config, s: State, call: Call)
    requires |call.outcome| >= cfg.retries && |call.recovery| >= cfg.retries
  {
    if call.ok
    then !Finds(cfg, s, call.outcome) && Finds(cfg, ActiveBucket(cfg, s, 0, call.outcome).0, call.recovery)
    else Finds(cfg, s, call.outcome)
  }

  /**
   * The outcome: one more success, and closed, if a success finds its bucket; one more failure if a
   * failure finds one, or a success whose bucket was lost finds one later; otherwise nothing.
   */
  lemma RecordMoves(cfg: Config, s: State, call: Call, f: Field)
    requires |call.outcome| >= cfg.retries && |call.recovery| >= cfg.retries && IdsKnown(s) && f != LastFailure
    ensures var (t, reply) := Record(cfg, s, call);
            && Moves(s, t, RecordHeard(cfg, s, call), f,
                     if (f == Success && reply == Returned) || (f == Failure && FailureCounted(cfg, s, call))
                     then 1 else 0)
            && (reply == Returned <==> call.ok && Finds(cfg, s, call.outcome))
            && (reply == Threw || reply == Tripped ==> FailureCounted(cfg, s, call))
            && (reply == Threw ==> !call.ok) && (!call.ok && reply == Lost ==> !Finds(cfg, s, call.outcome))
            && reply != Refused
            && t.mode == if reply == Returned then Closed else if reply == Tripped then Open else s.mode
  {
    var (s1, b) := ActiveBucket(cfg, s, 0, call.outcome);
    var heard := CountHeard(cfg, s, call.outcome, call.recording);
    if !call.ok {
      CountFailureMoves(cfg, s, call.outcome, call.recording, call.failedAt, f);
      assert heard + [] == heard;
    } else {
      LookupMoves(cfg, s, 0, call.outcome, f);
      if b == None {
        CountFailureMoves(cfg, s1, call.recovery, call.recovering, call.recoveredAt, f);
        var t := CountFailure(cfg, s1, call.recovery, call.recovering, call.recoveredAt).0;
        assert heard == LookupHeard(cfg, s, 0, call.outcome);
        MovesOn(s, s1, t, heard, CountHeard(cfg, s1, call.recovery, call.recovering), f, 0,
                if f == Failure && Finds(cfg, s1, call.recovery) then 1 else 0);
      } else {
        SuccessMoves(s1, call.recording, b.value, f);
        MovesOn(s, s1, Record(cfg, s, call).0, LookupHeard(cfg, s, 0, call.outcome), call.recording, f, 0,
                if f == Success then 1 else 0);
        assert heard + [] == heard;
      }
    }
  }

  lemma SuccessMoves(s: State, evs: seq<Background>, b: Member, f: Field)
    requires IdsKnown(s) && b < s.nextUid
    ensures Moves(s, Incremented(Disturbed(s, evs), b, Success, 1).(mode := Closed), evs, f,
                  if f == Success then 1 else 0)
  {
    var s1 := Disturbed(s, evs);
    BackgroundMoves(s, evs, f);
    IncrementMoves(s1, b, Success, 1, f);
    MovesOn(s, s1, Incremented(s1, b, Success, 1), evs, [], f, 0, if f == Success then 1 else 0);
    assert evs + [] == evs;
  }

  /** The finally block: one less in flight if it finds a bucket, and the reply as it was; else lost. */
  lemma ExitMoves(cfg: Config, s: State, call: Call, reply: Reply, f: Field)
    requires |call.final| >= cfg.retries && IdsKnown(s)
    ensures var (t, last) := Exit(cfg, s, call, reply);
            && Moves(s, t, LookupHeard(cfg, s, 0, call.final), f,
                     if f == InFlight && Finds(cfg, s, call.final) then -1 else 0)
            && last == (if Finds(cfg, s, call.final) then reply else Lost) && t.mode == s.mode
  {
    var (s1, b) := ActiveBucket(cfg, s, 0, call.final);
    var heard := LookupHeard(cfg, s, 0, call.final);
    LookupMoves(cfg, s, 0, call.final, f);
    if b != None {
      IncrementMoves(s1, b.value, InFlight, -1, f);
      MovesOn(s, s1, Incremented(s1, b.value, InFlight, -1), heard, [], f, 0, if f == InFlight then -1 else 0);
      assert heard + [] == heard;
    }
  }

  /** The final lookup of an admitted call finds a bucket. */
  ghost predicate Leaves(cfg: Config, s: State, call: Call)
    requires Complete(cfg, call)
  {
    var (s1, gate) := Enter(cfg, s, call);
    gate == Pass && Finds(cfg, Record(cfg, s1, call).0, call.final)
  }

  /** A call's own share in the in-flight counters, lookups lost or not. */
  ghost function InFlightShare(cfg: Config, s: State, call: Call): int
    requires Complete(cfg, call)
  {
    (if Enter(cfg, s, call).1 == Pass && s.mode != HalfOpen then 1 else 0) - if Leaves(cfg, s, call) then 1 else 0
  }

  lemma ServeMoves(cfg: Config, s: State, call: Call, f: Field)
    requires Complete(cfg, call) && IdsKnown(s) && f != LastFailure
    ensures var (t, reply) := Serve(cfg, s, call);
            var (s1, gate) := Enter(cfg, s, call);
            Moves(s, t, ServeHeard(cfg, s, call), f,
                  match f
                  case InFlight => InFlightShare(cfg, s, call)
                  case Rejection => if reply == Refused then 1 else 0
                  case Success => if gate == Pass && call.ok && Finds(cfg, s1, call.outcome) then 1 else 0
                  case Failure => if gate == Pass && FailureCounted(cfg, s1, call) then 1 else 0
                  case LastFailure => 0)
  {
    var (s1, gate) := Enter(cfg, s, call);
    var heard := GateHeard(cfg, s, call);
    EnterMoves(cfg, s, call, f);
    if gate == Pass {
      var (s2, reply) := Record(cfg, s1, call);
      RecordMoves(cfg, s1, call, f);
      ExitMoves(cfg, s2, call, reply, f);
      var own1 := if f == InFlight && s.mode != HalfOpen then 1 else 0;
      var counted := (f == Success && reply == Returned) || (f == Failure && FailureCounted(cfg, s1, call));
      var own2 := if counted then 1 else 0;
      var own3 := if f == InFlight && Finds(cfg, s2, call.final) then -1 else 0;
      var t := Exit(cfg, s2, call, reply).0;
      MovesOn(s1, s2, t, RecordHeard(cfg, s1, call), LookupHeard(cfg, s2, 0, call.final), f, own2, own3);
      MovesOn(s, s1, t, heard, RecordHeard(cfg, s1, call) + LookupHeard(cfg, s2, 0, call.final), f, own1, own2 + own3);
    } else {
      assert heard + [] == heard;
    }
  }

  /**
   * A call that loses no lookup leaves the in-flight counters as it found them, unless it came in
   * half-open: then they are one lower, since only its canary would have counted it.  It counts one
   * rejection if refused, else one outcome; the background moves the counters by its own share only.
   */
  lemma CallBalances(cfg: Config, s: State, call: Call)
    requires Complete(cfg, call) && IdsKnown(s) && Serve(cfg, s, call).1 != Lost
    ensures var (t, reply) := Serve(cfg, s, call);
            var heard := ServeHeard(cfg, s, call);
            && Moves(s, t, heard, InFlight, if reply != Refused && s.mode == HalfOpen then -1 else 0)
            && Moves(s, t, heard, Rejection, if reply == Refused then 1 else 0)
            && Moves(s, t, heard, Success, if reply == Returned then 1 else 0)
            && Moves(s, t, heard, Failure, if reply == Threw || reply == Tripped then 1 else 0)
            && (reply == Refused ==> s.mode == Open) && (reply == Threw ==> !call.ok) && (reply == Returned ==> call.ok)
            && t.mode == match reply
                         case Returned => Closed
                         case Tripped => Open
                         case _ => ModeAfterGate(cfg, s, call)
  {
    var (s1, gate) := Enter(cfg, s, call);
    ServeMoves(cfg, s, call, InFlight);
    ServeMoves(cfg, s, call, Rejection);
    ServeMoves(cfg, s, call, Success);
    ServeMoves(cfg, s, call, Failure);
    EnterMoves(cfg, s, call, InFlight);
    if gate == Pass {
      RecordMoves(cfg, s1, call, Failure);
      ExitMoves(cfg, Record(cfg, s1, call).0, call, Record(cfg, s1, call).1, InFlight);
    }
  }

  // ---------------------------------------------------------------- a quiet background

  predicate QuietReadings(rs: seq<Reading>) {
    forall i | 0 <= i < |rs| :: CountersQuiet(rs[i].before) && CountersQuiet(rs[i].between)
  }

  /** No canary counts itself or takes its count back during the call; buckets may be created all the same. */
  predicate QuietCall(call: Call) {
    && CountersQuiet(call.idle) && QuietReadings(call.gate) && CountersQuiet(call.probing)
    && QuietReadings(call.outcome) && CountersQuiet(call.recording)
    && QuietReadings(call.recovery) && CountersQuiet(call.recovering) && QuietReadings(call.final)
  }

  lemma {:induction false} QuietNet(evs: seq<Background>, next: Member)
    requires CountersQuiet(evs)
    ensures Net(evs, next, InFlight) == 0
    decreases |evs|
  {
    if evs != [] {
      assert !evs[0].InFlightMoved?;
      QuietNet(evs[1..], if evs[0].NewBucket? then next + 1 else next);
    }
  }

  lemma {:induction false} LookupHearsQuiet(cfg: Config, s: State, attempt: nat, rs: seq<Reading>)
    requires |rs| >= cfg.retries && QuietReadings(rs)
    ensures CountersQuiet(LookupHeard(cfg, s, attempt, rs))
    decreases cfg.retries - attempt
  {
    if attempt < cfg.retries {
      var r := rs[attempt];
      LookupHearsQuiet(cfg, Created(Disturbed(Disturbed(s, r.before), r.between), r.create), attempt + 1, rs);
    }
  }

  lemma CallHearsQuiet(cfg: Config, s: State, call: Call)
    requires Complete(cfg, call) && QuietCall(call)
    ensures CountersQuiet(ServeHeard(cfg, s, call))
  {
    var s1 := Disturbed(s, call.idle);
    LookupHearsQuiet(cfg, s1, 0, call.gate);
    LookupHearsQuiet(cfg, s1.(mode := HalfOpen), 0, call.gate);
    assert CountersQuiet(GateHeard(cfg, s, call));
    var s2 := Enter(cfg, s, call).0;
    LookupHearsQuiet(cfg, s2, 0, call.outcome);
    LookupHearsQuiet(cfg, ActiveBucket(cfg, s2, 0, call.outcome).0, 0, call.recovery);
    assert CountersQuiet(RecordHeard(cfg, s2, call));
    LookupHearsQuiet(cfg, Record(cfg, s2, call).0, 0, call.final);
  }

  /** Then the in-flight total is the same after the call, or one lower if it came in half-open. */
  lemma QuietCallBalances(cfg: Config, s: State, call: Call)
    requires Complete(cfg, call) && IdsKnown(s) && Serve(cfg, s, call).1 != Lost && QuietCall(call)
    ensures Total(Serve(cfg, s, call).0, InFlight) == Total(s, InFlight) - if s.mode == HalfOpen then 1 else 0
  {
    CallBalances(cfg, s, call);
    CallHearsQuiet(cfg, s, call);
    QuietNet(ServeHeard(cfg, s, call), s.nextUid);
  }

  // ---------------------------------------------------------------- runs

  ghost function RunHeard(cfg: Config, s: State, calls: seq<Call>, from: int): seq<Background>
    requires OneAfterAnother(cfg, calls, from)
    decreases |calls|
  {
    if calls == [] then []
    else ServeHeard(cfg, s, calls[0]) + RunHeard(cfg, Serve(cfg, s, calls[0]).0, calls[1..], End(calls[0].final))
  }

  /** The calls of a run that find the breaker half-open. */
  ghost function HalfOpenEntries(cfg: Config, s: State, calls: seq<Call>, from: int): nat
    requires OneAfterAnother(cfg, calls, from)
    decreases |calls|
  {
    if calls == [] then 0
    else (if s.mode == HalfOpen then 1 else 0)
         + HalfOpenEntries(cfg, Serve(cfg, s, calls[0]).0, calls[1..], End(calls[0].final))
  }

  function Replies(replies: seq<Reply>, among: set<Reply>): nat {
    if replies == [] then 0 else (if replies[0] in among then 1 else 0) + Replies(replies[1..], among)
  }

  /** What calls with these replies add to a counter, so many of them having come in half-open. */
  function ShareOf(replies: seq<Reply>, entries: nat, f: Field): int {
    match f
    case InFlight => 0 - entries
    case Rejection => Replies(replies, {Refused})
    case Success => Replies(replies, {Returned})
    case Failure => Replies(replies, {Threw, Tripped})
    case LastFailure => 0
  }

  lemma OneMoreReply(reply: Reply, replies: seq<Reply>, m: Mode, entries: nat, f: Field) returns (own: int)
    requires f != LastFailure
    ensures own == match f
                   case InFlight => if m == HalfOpen then -1 else 0
                   case Rejection => if reply == Refused then 1 else 0
                   case Success => if reply == Returned then 1 else 0
                   case Failure => if reply == Threw || reply == Tripped then 1 else 0
                   case LastFailure => 0
    ensures ShareOf([reply] + replies, (if m == HalfOpen then 1 else 0) + entries, f)
         == own + ShareOf(replies, entries, f)
  {
    assert ([reply] + replies)[1..] == replies;
    own := ShareOf([reply] + replies, (if m == HalfOpen then 1 else 0) + entries, f) - ShareOf(replies, entries, f);
  }

  lemma FirstServed(cfg: Config, s: State, calls: seq<Call>, from: int)
    requires OneAfterAnother(cfg, calls, from) && calls != []
    ensures var (s1, reply) := Serve(cfg, s, calls[0]);
            var (t, replies) := ServeAll(cfg, s1, calls[1..], End(calls[0].final));
            ServeAll(cfg, s, calls, from) == (t, [reply] + replies)
  {
  }

  /**
   * Over a run of non-overlapping calls that lose no lookup every reply is counted, each in its own
   * counter, and nothing stays in flight but what the canaries of the half-open calls put there.
   */
  lemma {:induction false} RunBalances(cfg: Config, s: State, calls: seq<Call>, from: int, f: Field)
    requires OneAfterAnother(cfg, calls, from) && IdsKnown(s) && f != LastFailure
    requires Lost !in ServeAll(cfg, s, calls, from).1
    ensures var (t, replies) := ServeAll(cfg, s, calls, from);
            Moves(s, t, RunHeard(cfg, s, calls, from), f, ShareOf(replies, HalfOpenEntries(cfg, s, calls, from), f))
    decreases |calls|
  {
    if calls != [] {
      var (s1, reply) := Serve(cfg, s, calls[0]);
      var later := End(calls[0].final);
      var (t, replies) := ServeAll(cfg, s1, calls[1..], later);
      var entries := HalfOpenEntries(cfg, s1, calls[1..], later);
      FirstServed(cfg, s, calls, from);
      assert reply in [reply] + replies && forall x | x in replies :: x in [reply] + replies;
      CallBalances(cfg, s, calls[0]);
      RunBalances(cfg, s1, calls[1..], later, f);
      var own := OneMoreReply(reply, replies, s.mode, entries, f);
      MovesOn(s, s1, t, ServeHeard(cfg, s, calls[0]), RunHeard(cfg, s1, calls[1..], later), f,
              own, ShareOf(replies, entries, f));
    }
  }

  // ---------------------------------------------------------------- the canaries' share

  /** The canaries that are counted in flight. */
  function CountedIn(frames: map<Member, CircuitCanary.Frame>): set<Member> {
    set c | c in frames && (frames[c].Counted? || frames[c].Passed?)
  }

  function TurnedAway(frames: map<Member, CircuitCanary.Frame>): set<Member> {
    set c | c in frames && frames[c].TurnedAway?
  }

  /** The buckets the canaries have found exist. */
  predicate FrameKnown(s: State, f: CircuitCanary.Frame) {
    f.Found? || f.Read? || f.Counted? || f.Uncounted? ==> f.b < s.nextUid
  }

  predicate FramesKnown(s: State, frames: map<Member, CircuitCanary.Frame>) {
    IdsKnown(s) && forall c | c in frames :: FrameKnown(s, frames[c])
  }

  /** What a canary at this place has added to the totals so far. */
  function CanaryShare(f: CircuitCanary.Frame, g: Field): int {
    match g
    case InFlight => if f.Counted? || f.Passed? then 1 else 0
    case Rejection => if f.TurnedAway? then 1 else 0
    case _ => 0
  }

  lemma CanaryStepMoves(cfg: Config, s: State, f: CircuitCanary.Frame, now: int, g: Field)
    requires IdsKnown(s) && FrameKnown(s, f)
    ensures var (t, f1) := CircuitCanary.CanaryStep(cfg, s, f, now);
            && IdsKnown(t) && FrameKnown(t, f1) && t.nextUid >= s.nextUid && t.mode == s.mode
            && Total(t, g) - CanaryShare(f1, g) == Total(s, g) - CanaryShare(f, g)
  {
    match f
    case Creating(_) => CreationMoves(s, now, g);
    case Read(b, _) => IncrementMoves(s, b, InFlight, 1, g);
    case Counted(b, n, lastFailure) => IncrementMoves(s, b, InFlight, -1, g);
    case Uncounted(b) => IncrementMoves(s, b, Rejection, 1, g);
    case _ =>
  }

  lemma SameButOne(a: set<Member>, b: set<Member>, c: Member)
    requires a - {c} == b - {c}
    ensures |a| - (if c in a then 1 else 0) == |b| - (if c in b then 1 else 0)
  {
    assert a == (a - {c}) + if c in a then {c} else {};
    assert b == (b - {c}) + if c in b then {c} else {};
  }

  lemma FrameReplaced(frames: map<Member, CircuitCanary.Frame>, c: Member, f: CircuitCanary.Frame)
    ensures var before := if c in frames then frames[c] else CircuitCanary.Gone;
            && |CountedIn(frames[c := f])| - CanaryShare(f, InFlight)
               == |CountedIn(frames)| - CanaryShare(before, InFlight)
            && |TurnedAway(frames[c := f])| - CanaryShare(f, Rejection)
               == |TurnedAway(frames)| - CanaryShare(before, Rejection)
  {
    assert CountedIn(frames[c := f]) - {c} == CountedIn(frames) - {c};
    SameButOne(CountedIn(frames), CountedIn(frames[c := f]), c);
    assert TurnedAway(frames[c := f]) - {c} == TurnedAway(frames) - {c};
    SameButOne(TurnedAway(frames), TurnedAway(frames[c := f]), c);
  }

  /**
   * Whatever turns the canaries take, the in-flight total moves with the number of canaries counted
   * in, the rejections with the number turned away, and the outcomes not at all.
   */
  lemma {:induction false} CanariesBalance(
    cfg: Config, s: State, frames: map<Member, CircuitCanary.Frame>, turns: seq<CircuitCanary.Turn>)
    requires FramesKnown(s, frames)
    ensures var (t, after) := CircuitCanary.Canaries(cfg, s, frames, turns);
            && FramesKnown(t, after) && t.mode == s.mode
            && Total(t, InFlight) - |CountedIn(after)| == Total(s, InFlight) - |CountedIn(frames)|
            && Total(t, Rejection) - |TurnedAway(after)| == Total(s, Rejection) - |TurnedAway(frames)|
            && Total(t, Success) == Total(s, Success) && Total(t, Failure) == Total(s, Failure)
    decreases |turns|
  {
    if turns != [] {
      var c := turns[0].c;
      var f := if c in frames then frames[c] else CircuitCanary.Gone;
      var (s1, f1) := CircuitCanary.CanaryStep(cfg, s, f, turns[0].at);
      CanaryStepMoves(cfg, s, f, turns[0].at, InFlight);
      CanaryStepMoves(cfg, s, f, turns[0].at, Rejection);
      CanaryStepMoves(cfg, s, f, turns[0].at, Success);
      CanaryStepMoves(cfg, s, f, turns[0].at, Failure);
      FrameReplaced(frames, c, f1);
      CanariesBalance(cfg, s1, frames[c := f1], turns[1..]);
    }
  }

  // ---------------------------------------------------------------- the failure's stamp

  /** The counted failure is stamped with the clock; nothing else differs but the failure count. */
  lemma FailureIsStamped(cfg: Config, s: State, rs: seq<Reading>, evs: seq<Background>, at: int)
    requires |rs| >= cfg.retries && Finds(cfg, s, rs)
    ensures var (s1, b) := ActiveBucket(cfg, s, 0, rs);
            var u, t := Disturbed(s1, evs), CountFailure(cfg, s, rs, evs, at).0;
            && Get(HashOf(t, b.value), LastFailure) == at
            && Get(HashOf(t, b.value), Failure) == Get(HashOf(u, b.value), Failure) + 1
            && forall x, f | x != b.value || (f != Failure && f != LastFailure) ::
                 Get(HashOf(t, x), f) == Get(HashOf(u, x), f)
  {
  }

  /** The bucket the outcome is counted in, if there is one. */
  ghost function OutcomeBucket(cfg: Config, s: State, call: Call): Option<Member>
    requires |call.outcome| >= cfg.retries && |call.recovery| >= cfg.retries
  {
    var (s1, b) := ActiveBucket(cfg, s, 0, call.outcome);
    if call.ok && b == None then ActiveBucket(cfg, s1, 0, call.recovery).1 else b
  }

  /** A failure, or a success whose bucket was lost, stamps its bucket with the clock reading made for it. */
  lemma RecordStamps(cfg: Config, s: State, call: Call)
    requires |call.outcome| >= cfg.retries && |call.recovery| >= cfg.retries && FailureCounted(cfg, s, call)
    ensures var b := OutcomeBucket(cfg, s, call);
            && b != None
            && Get(HashOf(Record(cfg, s, call).0, b.value), LastFailure)
               == if call.ok then call.recoveredAt else call.failedAt
  {
    if call.ok {
      FailureIsStamped(cfg, ActiveBucket(cfg, s, 0, call.outcome).0, call.recovery, call.recovering, call.recoveredAt);
    } else {
      FailureIsStamped(cfg, s, call.outcome, call.recording, call.failedAt);
    }
  }
}
