/**
 * The read-through cache and the buster over one shared store, under any interleaving.
 *
 * A version counts the effects on a key; an entry remembers the version its value was computed at
 * and the version current when it was stored.  Zero stands for a falsy result, which is not cached.
 */
module CacheCoherence {
  import opened SortedSets

  type Key = Member

  datatype Cached = Cached(value: int, expiry: int, readAt: nat, storedAt: nat)

  datatype Reader = Outside | Missed(k: Key) | Computed(k: Key, value: int, readAt: nat) | Answered(k: Key, value: int)

  /** `dirty` are the keys of the mutation that it has changed so far. */
  datatype Writer = Resting | Mutating(keys: set<Key>, dirty: set<Key>) | Busting(keys: set<Key>, dirty: set<Key>)

  datatype State = State(
    clock: int,
    current: map<Key, int>,
    version: map<Key, nat>,
    store: map<Key, Cached>,
    readers: map<Member, Reader>,
    writers: map<Member, Writer>,
    unbusted: set<Key>)    // keys changed by a mutation whose buster decided not to delete

  datatype Action =
    | Tick(d: nat)
    | Lookup(r: Member, k: Key)                 // GET
    | Compute(r: Member)                        // the decorated function reads the current value
    | Store(r: Member)                          // SET PX, unless the result is falsy
    | Begin(w: Member, keys: set<Key>)
    | Effect(w: Member, k: Key, value: int)
    | Decide(w: Member, bust: bool)             // the function is over and the predicate evaluated
    | Delete(w: Member)                         // DEL of all the keys

  function Value(s: State, k: Key): int {
    if k in s.current then s.current[k] else 0
  }

  function Version(s: State, k: Key): nat {
    if k in s.version then s.version[k] else 0
  }

  function ReaderOf(s: State, r: Member): Reader {
    if r in s.readers then s.readers[r] else Outside
  }

  function WriterOf(s: State, w: Member): Writer {
    if w in s.writers then s.writers[w] else Resting
  }

  predicate Unexpired(s: State, k: Key) {
    k in s.store && s.store[k].expiry > s.clock
  }

  function LookedUp(s: State, r: Member, k: Key): State {
    if !ReaderOf(s, r).Outside? && !ReaderOf(s, r).Answered? then s
    else s.(readers := s.readers[r := if Unexpired(s, k) then Answered(k, s.store[k].value) else Missed(k)])
  }

  function Computing(s: State, r: Member): State {
    match ReaderOf(s, r)
    case Missed(k) => s.(readers := s.readers[r := Computed(k, Value(s, k), Version(s, k))])
    case _ => s
  }

  function Stored(ttl: int, s: State, r: Member): State {
    match ReaderOf(s, r)
    case Computed(k, value, readAt) =>
      s.(readers := s.readers[r := Answered(k, value)],
         store := if value == 0 then s.store else s.store[k := Cached(value, s.clock + ttl, readAt, Version(s, k))])
    case _ => s
  }

  function Effected(s: State, w: Member, k: Key, value: int): State {
    match WriterOf(s, w)
    case Mutating(keys, dirty) =>
      if k in keys
      then s.(current := s.current[k := value], version := s.version[k := Version(s, k) + 1],
              writers := s.writers[w := Mutating(keys, dirty + {k})])
      else s
    case _ => s
  }

  function Decided(s: State, w: Member, bust: bool): State {
    match WriterOf(s, w)
    case Mutating(keys, dirty) =>
      if bust then s.(writers := s.writers[w := Busting(keys, dirty)])
      else s.(writers := s.writers[w := Resting], unbusted := s.unbusted + dirty)
    case _ => s
  }

  function Deleted(s: State, w: Member): State {
    match WriterOf(s, w)
    case Busting(keys, dirty) => s.(writers := s.writers[w := Resting], store := s.store - keys)
    case _ => s
  }

  function Step(ttl: int, s: State, a: Action): State {
    match a
    case Tick(d) => s.(clock := s.clock + d)
    case Lookup(r, k) => LookedUp(s, r, k)
    case Compute(r) => Computing(s, r)
    case Store(r) => Stored(ttl, s, r)
    case Begin(w, keys) => if WriterOf(s, w).Resting? then s.(writers := s.writers[w := Mutating(keys, {})]) else s
    case Effect(w, k, value) => Effected(s, w, k, value)
    case Decide(w, bust) => Decided(s, w, bust)
    case Delete(w) => Deleted(s, w)
  }

  function Exec(ttl: int, s: State, acts: seq<Action>): State {
    if acts == [] then s else Step(ttl, Exec(ttl, s, acts[..|acts| - 1]), acts[|acts| - 1])
  }

  function Initial(current: map<Key, int>): State {
    State(0, current, map[], map[], map[], map[], {})
  }

  // ---------------------------------------------------------------- staleness explained

  /** Some mutation has changed k and not deleted it yet. */
  ghost predicate Pending(s: State, k: Key) {
    exists w :: !WriterOf(s, w).Resting? && k in WriterOf(s, w).dirty
  }

  ghost predicate EntrySound(s: State, k: Key) {
    k in s.store ==>
      var e := s.store[k];
      && e.readAt <= e.storedAt <= Version(s, k)
      && (e.readAt == Version(s, k) ==> e.value == Value(s, k))
      && (e.storedAt < Version(s, k) ==> Pending(s, k) || k in s.unbusted)
  }

  predicate ReaderSound(s: State, r: Member) {
    match ReaderOf(s, r)
    case Computed(k, value, readAt) => readAt <= Version(s, k) && (readAt == Version(s, k) ==> value == Value(s, k))
    case _ => true
  }

  predicate WriterSound(s: State, w: Member) {
    !WriterOf(s, w).Resting? ==> WriterOf(s, w).dirty <= WriterOf(s, w).keys
  }

  function ActingReader(a: Action): set<Member> {
    match a
    case Lookup(r, _) => {r}
    case Compute(r) => {r}
    case Store(r) => {r}
    case _ => {}
  }

  function ActingWriter(a: Action): set<Member> {
    match a
    case Begin(w, _) => {w}
    case Effect(w, _, _) => {w}
    case Decide(w, _) => {w}
    case Delete(w) => {w}
    case _ => {}
  }

  /** A step moves its own caller only; only stores and deletes touch the store, only effects the values. */
  lemma OthersStay(ttl: int, s: State, a: Action, x: Member)
    ensures var t := Step(ttl, s, a);
            && (x !in ActingReader(a) ==> ReaderOf(t, x) == ReaderOf(s, x))
            && (x !in ActingWriter(a) ==> WriterOf(t, x) == WriterOf(s, x))
            && (!a.Store? && !a.Delete? ==> t.store == s.store)
            && (!a.Effect? ==> t.current == s.current && t.version == s.version)
            && (!a.Tick? ==> t.clock == s.clock)
  {
  }

  lemma StepKeepsReader(ttl: int, s: State, a: Action, r: Member)
    requires ReaderSound(s, r)
    ensures ReaderSound(Step(ttl, s, a), r)
  {
  }

  lemma StepKeepsWriter(ttl: int, s: State, a: Action, w: Member)
    requires WriterSound(s, w)
    ensures WriterSound(Step(ttl, s, a), w)
  {
  }

  /** A pending mutation stays pending until it deletes the key or declines to. */
  lemma PendingStays(ttl: int, s: State, a: Action, k: Key)
    requires Pending(s, k) && (a.Delete? ==> WriterSound(s, a.w))
    ensures var s' := Step(ttl, s, a); Pending(s', k) || k in s'.unbusted || k !in s'.store
  {
    var w :| !WriterOf(s, w).Resting? && k in WriterOf(s, w).dirty;
    var s' := Step(ttl, s, a);
    if !WriterOf(s', w).Resting? {
      assert k in WriterOf(s', w).dirty;
    }
  }

  lemma StepKeepsEntry(ttl: int, s: State, a: Action, k: Key)
    requires EntrySound(s, k) && (a.Store? ==> ReaderSound(s, a.r)) && (a.Delete? ==> WriterSound(s, a.w))
    ensures EntrySound(Step(ttl, s, a), k)
  {
    var s' := Step(ttl, s, a);
    if Pending(s, k) {
      PendingStays(ttl, s, a, k);
    }
    if a.Effect? && Version(s', k) != Version(s, k) {
      assert k in WriterOf(s', a.w).dirty;
    }
  }

  lemma {:induction false} RunKeepsAll(
    ttl: int, current: map<Key, int>, acts: seq<Action>, k: Key, r: Member, w: Member)
    ensures var s := Exec(ttl, Initial(current), acts); EntrySound(s, k) && ReaderSound(s, r) && WriterSound(s, w)
  {
    if acts != [] {
      var n := |acts| - 1;
      var s := Exec(ttl, Initial(current), acts[..n]);
      var a := acts[n];
      RunKeepsAll(ttl, current, acts[..n], k, if a.Store? then a.r else r, if a.Delete? then a.w else w);
      RunKeepsAll(ttl, current, acts[..n], k, r, w);
      StepKeepsEntry(ttl, s, a, k);
      StepKeepsReader(ttl, s, a, r);
      StepKeepsWriter(ttl, s, a, w);
    }
  }

  lemma DeletingLeavesNothing(ttl: int, s: State, a: Action)
    requires a.Decide? ==> a.bust
    ensures Step(ttl, s, a).unbusted == s.unbusted
  {
  }

  /** If every mutation's buster deletes, no key is ever left unbusted. */
  lemma {:induction false} BustersLeaveNothing(ttl: int, current: map<Key, int>, acts: seq<Action>)
    requires forall i | 0 <= i < |acts| :: acts[i].Decide? ==> acts[i].bust
    ensures Exec(ttl, Initial(current), acts).unbusted == {}
  {
    if acts != [] {
      var n := |acts| - 1;
      BustersLeaveNothing(ttl, current, acts[..n]);
      DeletingLeavesNothing(ttl, Exec(ttl, Initial(current), acts[..n]), acts[n]);
    }
  }

  /**
   * With busters that always delete, an entry that differs from the current value is about to be
   * deleted by a mutation that has had its effect, or its writer computed it before a mutation's
   * effect and stored it after.
   */
  lemma StaleEntryExplained(ttl: int, current: map<Key, int>, acts: seq<Action>, k: Key)
    requires forall i | 0 <= i < |acts| :: acts[i].Decide? ==> acts[i].bust
    requires var s := Exec(ttl, Initial(current), acts); k in s.store && s.store[k].value != Value(s, k)
    ensures var s := Exec(ttl, Initial(current), acts);
            || (exists w :: !WriterOf(s, w).Resting? && k in WriterOf(s, w).dirty)
            || s.store[k].readAt < s.store[k].storedAt
  {
    RunKeepsAll(ttl, current, acts, k, 0, 0);
    BustersLeaveNothing(ttl, current, acts);
  }

  // ---------------------------------------------------------------- what a lookup answers

  lemma Extend(ttl: int, current: map<Key, int>, acts: seq<Action>, a: Action)
    ensures Exec(ttl, Initial(current), acts + [a]) == Step(ttl, Exec(ttl, Initial(current), acts), a)
  {
    assert (acts + [a])[..|acts|] == acts;
  }

  /**
   * A lookup misses exactly when no unexpired entry is stored.  With busters that always delete, a
   * hit answers the current value unless a mutation is about to delete the entry or its store
   * straddled one.
   */
  lemma LookupAnswers(ttl: int, current: map<Key, int>, acts: seq<Action>, r: Member, k: Key)
    requires forall i | 0 <= i < |acts| :: acts[i].Decide? ==> acts[i].bust
    requires var f := ReaderOf(Exec(ttl, Initial(current), acts), r); f.Outside? || f.Answered?
    ensures var s, t := Exec(ttl, Initial(current), acts), Exec(ttl, Initial(current), acts + [Lookup(r, k)]);
            && t == s.(readers := s.readers[r := ReaderOf(t, r)])
            && if Unexpired(s, k) then
                 && ReaderOf(t, r) == Answered(k, s.store[k].value)
                 && (s.store[k].value == Value(s, k) || Pending(s, k) || s.store[k].readAt < s.store[k].storedAt)
               else
                 ReaderOf(t, r) == Missed(k)
  {
    Extend(ttl, current, acts, Lookup(r, k));
    RunKeepsAll(ttl, current, acts, k, 0, 0);
    BustersLeaveNothing(ttl, current, acts);
  }

  /** A miss that nobody interrupts answers the current value, and keeps it unless it is falsy. */
  lemma MissAnswersCurrent(ttl: int, s: State, r: Member, k: Key)
    requires (ReaderOf(s, r).Outside? || ReaderOf(s, r).Answered?) && !Unexpired(s, k)
    ensures var t := Step(ttl, Step(ttl, Step(ttl, s, Lookup(r, k)), Compute(r)), Store(r));
            && ReaderOf(t, r) == Answered(k, Value(s, k))
            && t.current == s.current && t.version == s.version && t.clock == s.clock && t.writers == s.writers
            && t.store == if Value(s, k) == 0 then s.store
                          else s.store[k := Cached(Value(s, k), s.clock + ttl, Version(s, k), Version(s, k))]
  {
    assert ReaderOf(Step(ttl, s, Lookup(r, k)), r) == Missed(k);
  }

  /** A stored entry answers lookups for as long as its time to live and no longer, whenever it was stored. */
  lemma EntryLives(ttl: int, s: State, r: Member, d: nat)
    requires ReaderOf(s, r).Computed? && ReaderOf(s, r).value != 0
    ensures var t := Step(ttl, Step(ttl, s, Store(r)), Tick(d));
            var k := ReaderOf(s, r).k;
            && k in t.store && t.store[k].value == ReaderOf(s, r).value
            && (Unexpired(t, k) <==> d < ttl)
            && t.store == s.store[k := t.store[k]]
  {
  }

  /** The buster deletes every key of its mutation, whether changed or not, and no other. */
  lemma DeletionClearsAllKeys(ttl: int, s: State, w: Member)
    requires WriterOf(s, w).Busting?
    ensures var t := Step(ttl, s, Delete(w));
            && (forall k :: k in t.store <==> k in s.store && k !in WriterOf(s, w).keys)
            && (forall k | k in t.store :: t.store[k] == s.store[k])
            && WriterOf(t, w).Resting? && t.current == s.current && t.readers == s.readers
  {
  }

  // ---------------------------------------------------------------- the store that straddles a mutation

  /** Reader 1 has computed the value 1 of key 0, and then writer 2 has changed it to 2. */
  lemma ReadThenChanged(ttl: int) returns (acts: seq<Action>)
    ensures forall i | 0 <= i < |acts| :: !acts[i].Decide?
    ensures Exec(ttl, Initial(map[0 := 1]), acts)
         == State(0, map[0 := 2], map[0 := 1], map[], map[1 := Computed(0, 1, 0)], map[2 := Mutating({0}, {0})], {})
  {
    var before := map[0 := 1];
    var s := Initial(before);
    acts := [];
    Extend(ttl, before, acts, Lookup(1, 0));
    acts := acts + [Lookup(1, 0)];
    assert Exec(ttl, s, acts) == s.(readers := map[1 := Missed(0)]);
    Extend(ttl, before, acts, Compute(1));
    acts := acts + [Compute(1)];
    s := s.(readers := map[1 := Computed(0, 1, 0)]);
    assert Exec(ttl, Initial(before), acts) == s;
    Extend(ttl, before, acts, Begin(2, {0}));
    acts := acts + [Begin(2, {0})];
    assert Exec(ttl, Initial(before), acts) == s.(writers := map[2 := Mutating({0}, {})]);
    Extend(ttl, before, acts, Effect(2, 0, 2));
    acts := acts + [Effect(2, 0, 2)];
    EffectOnZero(s.(writers := map[2 := Mutating({0}, {})]));
  }

  lemma EffectOnZero(s: State)
    requires s.current == map[0 := 1] && s.version == map[] && s.writers == map[2 := Mutating({0}, {})]
    ensures Effected(s, 2, 0, 2)
         == s.(current := map[0 := 2], version := map[0 := 1], writers := map[2 := Mutating({0}, {0})])
  {
    assert {} + {0 as Key} == {0 as Key};
  }

  /** A reader stores the old value after the mutation has deleted the key: stale, with nothing pending. */
  lemma StraddlingStoreStaysStale(ttl: int) returns (acts: seq<Action>)
    requires ttl > 0
    ensures forall i | 0 <= i < |acts| :: acts[i].Decide? ==> acts[i].bust
    ensures var s := Exec(ttl, Initial(map[0 := 1]), acts);
            && Unexpired(s, 0) && s.store[0].value == 1 && Value(s, 0) == 2
            && forall w :: WriterOf(s, w).Resting?
  {
    var before := map[0 := 1];
    acts := ReadThenChanged(ttl);
    Extend(ttl, before, acts, Decide(2, true));
    acts := acts + [Decide(2, true)];
    Extend(ttl, before, acts, Delete(2));
    acts := acts + [Delete(2)];
    Extend(ttl, before, acts, Store(1));
    acts := acts + [Store(1)];
  }

  /** A buster that declines to delete leaves a stale entry with nothing pending and no store that straddled. */
  lemma DecliningLeavesStale(ttl: int) returns (acts: seq<Action>)
    requires ttl > 0
    ensures var s := Exec(ttl, Initial(map[0 := 1]), acts);
            && Unexpired(s, 0) && s.store[0].value != Value(s, 0) && s.store[0].readAt == s.store[0].storedAt
            && forall w :: WriterOf(s, w).Resting?
  {
    var before := map[0 := 1];
    acts := EntryStored(ttl);
    Extend(ttl, before, acts, Begin(2, {0}));
    acts := acts + [Begin(2, {0})];
    Extend(ttl, before, acts, Effect(2, 0, 2));
    acts := acts + [Effect(2, 0, 2)];
    Extend(ttl, before, acts, Decide(2, false));
    acts := acts + [Decide(2, false)];
  }

  /** Reader 1 has missed key 0, computed its value 1 and stored it. */
  lemma EntryStored(ttl: int) returns (acts: seq<Action>)
    ensures Exec(ttl, Initial(map[0 := 1]), acts)
         == State(0, map[0 := 1], map[], map[0 := Cached(1, ttl, 0, 0)], map[1 := Answered(0, 1)], map[], {})
  {
    var before := map[0 := 1];
    Extend(ttl, before, [], Lookup(1, 0));
    acts := [Lookup(1, 0)];
    Extend(ttl, before, acts, Compute(1));
    acts := acts + [Compute(1)];
    Extend(ttl, before, acts, Store(1));
    acts := acts + [Store(1)];
  }
}
