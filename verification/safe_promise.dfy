/** The race helper's code over the shared registry, each method being what runs between two awaits. */
module SafePromise {
  import opened Race

  class Registry {
    var raceMap: map<Promise, Record>
    var outcomes: map<Promise, Outcome>
    var entrants: map<RaceId, Entrant>
    var microtasks: seq<Job>
    ghost var cancelled: set<Promise>

    constructor ()
      ensures View() == Initial
    {
      raceMap, outcomes, entrants, microtasks, cancelled := map[], map[], map[], [], {};
    }

    ghost function View(): State
      reads this
    {
      State(outcomes, raceMap, entrants, microtasks, cancelled)
    }

    method Move(r: RaceId, f: Phase)
      requires r in entrants
      modifies this`entrants
      ensures View() == Goto(old(View()), r, f)
    {
      entrants := entrants[r := entrants[r].(phase := f)];
    }

    /** addRaceContender, called once in a contender's life, then `await null`. */
    method AddRaceContender(r: RaceId, i: nat, c: Promise)
      requires r in entrants && c !in raceMap
      modifies this`raceMap, this`microtasks, this`entrants
      ensures View() == Registration(old(View()), r, i, c)
    {
      raceMap := raceMap[c := Record({}, false)];
      if c in outcomes {
        microtasks := microtasks + [Fire(c)];
      }
      microtasks := microtasks + [Resume(r)];
      Move(r, Yielded(i, c in outcomes));
    }

    /** The second loop: leave the settler with every contender until one is found settled. */
    method LeaveSettlers(r: RaceId)
      requires r in entrants
      modifies this`raceMap, this`entrants
      ensures View() == Join(old(View()), r, 0)
    {
      var cs := entrants[r].contenders;
      var i := 0;
      while i < |cs|
        invariant i <= |cs|
        invariant entrants == old(entrants) && outcomes == old(outcomes)
        invariant Join(View(), r, i) == Join(old(View()), r, 0)
      {
        if cs[i].Thenable? && cs[i].p in raceMap {
          var record := raceMap[cs[i].p];
          if record.settled && cs[i].p in outcomes {
            Move(r, Locked(outcomes[cs[i].p]));
            return;
          }
          raceMap := raceMap[cs[i].p := record.(races := record.races + {r})];
        }
        i := i + 1;
      }
      Move(r, Registered);
    }

    /** The first loop, from contender `from` to the next await or to the second loop. */
    method WalkContenders(r: RaceId, from: nat)
      requires r in entrants
      modifies this
      ensures View() == Scan(old(View()), r, from)
    {
      var cs := entrants[r].contenders;
      var i := from;
      while i < |cs|
        invariant View() == old(View())
        invariant Scan(View(), r, i) == Scan(View(), r, from)
        decreases |cs| - i
      {
        match cs[i] {
          case Primitive(v) =>
            Move(r, Finished(Fulfilled(v)));
            return;
          case Thenable(c) =>
            if c !in raceMap {
              AddRaceContender(r, i, c);
              return;
            } else if raceMap[c].settled {
              Move(r, Following(c));
              return;
            }
        }
        i := i + 1;
      }
      LeaveSettlers(r);
    }

    /** race, up to its first await. */
    method RaceStart(r: RaceId, raceables: seq<Contender>)
      requires r !in entrants
      modifies this
      ensures View() == Started(old(View()), r, raceables)
    {
      entrants := entrants[r := Entrant(raceables, Never)];
      if |raceables| == 1 {
        match raceables[0] {
          case Primitive(v) => Move(r, Finished(Fulfilled(v)));
          case Thenable(c) => Move(r, Following(c));
        }
      } else if |raceables| > 1 {
        WalkContenders(r, 0);
      }
    }

    /** race, after `await null`. */
    method RaceResume(r: RaceId)
      requires r in entrants && entrants[r].phase.Yielded? && entrants[r].phase.at < |entrants[r].contenders|
      requires entrants[r].contenders[entrants[r].phase.at].Thenable?
      requires entrants[r].contenders[entrants[r].phase.at].p in raceMap
      modifies this
      ensures View() == Resumed(old(View()), r)
    {
      var i := entrants[r].phase.at;
      var c := entrants[r].contenders[i].p;
      if raceMap[c].settled {
        Move(r, Following(c));
      } else {
        WalkContenders(r, i + 1);
      }
    }

    /** Calling the settlers one by one; a settler's second call does nothing. */
    method CallSettlers(races: set<RaceId>, o: Outcome)
      modifies this`entrants
      ensures entrants == Decide(old(entrants), races, o)
    {
      var todo := races;
      while todo != {}
        invariant todo <= races
        invariant entrants == Decide(old(entrants), races - todo, o)
        decreases |todo|
      {
        var r :| r in todo;
        ghost var before := entrants;
        if r in entrants && entrants[r].phase.Registered? {
          entrants := entrants[r := entrants[r].(phase := Locked(o))];
        }
        todo := todo - {r};
      }
      assert races - todo == races;
    }

    /** The watcher of a contender that has settled. */
    method FireWatcher(p: Promise)
      requires p in raceMap && p in outcomes
      modifies this`entrants, this`raceMap
      ensures View() == Fired(old(View()), p)
    {
      CallSettlers(raceMap[p].races, outcomes[p]);
      raceMap := raceMap[p := Record({}, true)];
    }

    method Cancel(p: Promise)
      modifies this
      ensures View() == CancelledAll(old(View()), p)
      ensures p in old(raceMap) && !old(raceMap)[p].settled ==> raceMap == old(raceMap)[p := Record({}, false)]
      ensures p in old(raceMap) && !old(raceMap)[p].settled ==>
                forall r | r in old(raceMap)[p].races && r in old(entrants) && old(entrants)[r].phase.Registered? ::
                  r in entrants && entrants[r] == Entrant(old(entrants)[r].contenders, Locked(Cancelled))
    {
      if p !in raceMap || raceMap[p].settled {
        return;
      }
      CallSettlers(raceMap[p].races, Cancelled);
      raceMap := raceMap[p := Record({}, false)];
      cancelled := cancelled + {p};
    }

    /** The event loop takes the oldest microtask. */
    method RunMicrotask()
      requires microtasks != [] && Inv(View())
      modifies this
      ensures View() == Ran(old(View())) && Inv(View())
    {
      var job := microtasks[0];
      StepKeepsInv(View(), RunJob);
      match job {
        case Fire(p) =>
          assert JobSound(View(), p);
          microtasks := microtasks[1..];
          FireWatcher(p);
        case Resume(r) =>
          ResumeInTransit(View(), r);
          assert RaceSound(View(), r);
          microtasks := microtasks[1..];
          RaceResume(r);
      }
    }

    /** The finally block. */
    method DropSettler(r: RaceId)
      requires r in entrants && entrants[r].phase.Locked?
      modifies this`entrants, this`raceMap
      ensures View() == CleanedUp(old(View()), r)
      ensures entrants == old(entrants)[r := Entrant(old(entrants)[r].contenders,
                                                     Finished(old(entrants)[r].phase.outcome))]
      ensures forall p | p in old(raceMap) && Thenable(p) in old(entrants)[r].contenders ::
                p in raceMap && r !in raceMap[p].races
      ensures old(Inv(View())) ==> WithoutSettler(old(raceMap), raceMap, r)
    {
      var cs := entrants[r].contenders;
      for i := 0 to |cs|
        invariant entrants == old(entrants)
        invariant raceMap == Dropped(old(raceMap), cs[..i], r)
      {
        DroppedNext(old(raceMap), cs, i, r);
        if cs[i].Thenable? && cs[i].p in raceMap {
          raceMap := raceMap[cs[i].p := raceMap[cs[i].p].(races := raceMap[cs[i].p].races - {r})];
        }
      }
      assert cs[..|cs|] == cs;
      Move(r, Finished(entrants[r].phase.outcome));
      if old(Inv(View())) {
        DropReachesAll(old(View()), r);
      }
    }

    /** A race that follows a contender takes that contender's outcome once there is one. */
    method TakeFollowed(r: RaceId)
      requires r in entrants && entrants[r].phase.Following?
      modifies this`entrants
      ensures View() == Step(old(View()), Adopt(r))
      ensures var p := old(entrants)[r].phase.p;
              entrants == if p in outcomes
                          then old(entrants)[r := Entrant(old(entrants)[r].contenders, Finished(outcomes[p]))]
                          else old(entrants)
    {
      var p := entrants[r].phase.p;
      if p in outcomes {
        Move(r, Finished(outcomes[p]));
      }
    }
  }

  lemma DroppedNext(records: map<Promise, Record>, cs: seq<Contender>, i: nat, r: RaceId)
    requires i < |cs|
    ensures var before, after := Dropped(records, cs[..i], r), Dropped(records, cs[..i + 1], r);
            if cs[i].Thenable? && cs[i].p in before
            then after == before[cs[i].p := before[cs[i].p].(races := before[cs[i].p].races - {r})]
            else after == before
  {
    assert cs[..i + 1] == cs[..i] + [cs[i]];
    var before, after := Dropped(records, cs[..i], r), Dropped(records, cs[..i + 1], r);
    forall p | p in records
      ensures after[p] == if cs[i] == Thenable(p) then before[p].(races := before[p].races - {r}) else before[p]
    {
      assert records[p].races - {r} - {r} == records[p].races - {r};
    }
  }
}
