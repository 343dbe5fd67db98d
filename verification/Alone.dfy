/**
 The interleaved machine contains the sequential one: a request that nothing interrupts does, move by move, what one
 attempt of CreateVolume or DeleteVolume does.
 */
module Alone {
  import opened Backend
  import opened Create
  import opened Converge
  import opened Delete
  import opened Undo
  import opened F = Fleet
  import opened Safety

  /** A run can be taken apart at its first event. */
  lemma {:induction false} RunOnward(light: bool, d: Driver, x: Fleet, e: Event, rest: seq<Event>)
    ensures Run(d, x, [e] + rest) == Run(d, Apply(d, x, e), rest)
    ensures Enabled(light, d, x, e) && Possible(light, d, Apply(d, x, e), rest) ==> Possible(light, d, x, [e] + rest)
    decreases |rest|
  {
    var all := [e] + rest;
    if rest == [] {
      assert all[..|all| - 1] == [];
    } else {
      assert all[..|all| - 1] == [e] + rest[..|rest| - 1];
      RunOnward(light, d, x, e, rest[..|rest| - 1]);
    }
  }

  /** The fleet once a create is over. */
  function Ended(x: Fleet, t: nat, j: Job, e: Ending): Fleet {
    Fleet(e.state, x.reqmap - {j.v.name}, x.threads - {t},
          if e.outcome.Created? then x.phases[j.v.name := Live(j)] else x.phases)
  }

  lemma SameEnd(x: Fleet, y: Fleet, t: nat, j: Job, e: Ending)
    requires y.phases == x.phases && y.reqmap - {j.v.name} == x.reqmap - {j.v.name}
    requires y.threads - {t} == x.threads - {t}
    ensures Ended(y, t, j, e) == Ended(x, t, j, e)
  {
  }

  lemma {:induction false} BodyAlone(light: bool, d: Driver, x: Fleet, t: nat, j: Job, pc: Pc,
      faults: seq<Fault>) returns (events: seq<Event>)
    requires t in x.threads && x.threads[t] == Creating(j, pc) && Admitted(pc)
    ensures Possible(light, d, x, events)
    ensures Run(d, x, events) == Ended(x, t, j, BodyRun(j.v, pc, x.s, faults))
    decreases Rank(pc)
  {
    var e, turn := Move(t, Head(faults)), BodyStep(j.v, pc, x.s, Head(faults));
    var y := MoveBody(x, t, j, pc, Head(faults));
    assert Apply(d, x, e) == y;
    var rest := [];
    if !turn.pc.Done? {
      rest := BodyAlone(light, d, y, t, j, turn.pc, Tail(faults));
      assert y.threads - {t} == x.threads - {t};
      SameEnd(x, y, t, j, BodyRun(j.v, pc, x.s, faults));
    }
    RunOnward(light, d, x, e, rest);
    events := [e] + rest;
  }

  lemma AdmissionAlone(light: bool, d: Driver, x: Fleet, t: nat, j: Job, faults: seq<Fault>)
    returns (events: seq<Event>)
    requires t in x.threads && x.threads[t] == Creating(j, Admission) && j.v.name !in x.reqmap
    ensures Possible(light, d, x, events)
    ensures Run(d, x, events) == Ended(x, t, j, BodyRun(j.v, BodyStart(j.v), x.s, faults))
  {
    var e, pc := Move(t, Clean), BodyStart(j.v);
    var y := x.(reqmap := x.reqmap[j.v.name := j.v.size], threads := x.threads[t := Creating(j, pc)]);
    assert Apply(d, x, e) == y;
    var rest := BodyAlone(light, d, y, t, j, pc, faults);
    assert y.threads - {t} == x.threads - {t};
    assert y.reqmap - {j.v.name} == x.reqmap - {j.v.name};
    SameEnd(x, y, t, j, BodyRun(j.v, pc, x.s, faults));
    RunOnward(light, d, x, e, rest);
    events := [e] + rest;
  }

  /** A move before admission. */
  lemma FrontMove(d: Driver, x: Fleet, t: nat, j: Job, pc: Pc, f: Fault)
    requires t in x.threads && x.threads[t] == Creating(j, pc) && BeforeAdmission(pc) && pc != Admission
    ensures var next := Read(x.s, f, FrontNext(d, j.q, pc)).pc;
      Apply(d, x, Move(t, f)) ==
        x.(threads := if next.Done? then x.threads - {t} else x.threads[t := Creating(j, next)])
  {
  }

  lemma {:induction false} FrontAlone(light: bool, d: Driver, x: Fleet, t: nat, j: Job, pc: Pc,
      faults: seq<Fault>) returns (events: seq<Event>)
    requires t in x.threads && x.threads[t] == Creating(j, pc) && BeforeAdmission(pc)
    requires j.v == Resolve(d, j.q) && j.v.name !in x.reqmap
    ensures Possible(light, d, x, events)
    ensures Run(d, x, events) == Ended(x, t, j, FrontRun(d, j.q, pc, x.s, faults))
    decreases Rank(pc)
  {
    if pc == Admission {
      events := AdmissionAlone(light, d, x, t, j, faults);
    } else {
      var e, next := Move(t, Head(faults)), Read(x.s, Head(faults), FrontNext(d, j.q, pc)).pc;
      var y := Apply(d, x, e);
      FrontMove(d, x, t, j, pc, Head(faults));
      assert y.threads - {t} == x.threads - {t};
      var rest := [];
      if next.Done? {
        assert x.reqmap - {j.v.name} == x.reqmap;
      } else {
        rest := FrontAlone(light, d, y, t, j, next, Tail(faults));
      }
      SameEnd(x, y, t, j, FrontRun(d, j.q, next, x.s, Tail(faults)));
      RunOnward(light, d, x, e, rest);
      events := [e] + rest;
    }
  }

  /** What the fleet is after a create that ran alone. */
  ghost predicate AfterCreate(d: Driver, x: Fleet, y: Fleet, q: Request, e: Ending) {
    && y.s == e.state && y.reqmap == x.reqmap && y.threads == x.threads
    && q.name in y.phases
    && y.phases == x.phases[q.name := y.phases[q.name]]
    && (e.outcome.Created? ==> y.phases[q.name] == Live(JobOf(d, q)))
    && (!e.outcome.Created? && q.name in x.phases ==> y.phases == x.phases)
  }

  /** Starting a create and ending it changes nothing of the fleet but the backend and the name's phase. */
  lemma StartedAndEnded(d: Driver, x: Fleet, y: Fleet, t: nat, q: Request, e: Ending)
    requires t !in x.threads && q.name !in x.reqmap && y == Apply(d, x, StartCreate(t, q))
    ensures AfterCreate(d, x, Ended(y, t, JobOf(d, q), e), q, e)
  {
    assert y.threads - {t} == x.threads;
    assert y.reqmap - {q.name} == x.reqmap;
  }

  /**
   Wherever a create may start and its name is not in process, it can run to its end undisturbed by others, under any
   faults, and then the backend is the one CreateVolume leaves, nothing else of the fleet has changed, and the name is
   live if CreateVolume succeeds.
   */
  lemma CreateRunsAlone(light: bool, d: Driver, x: Fleet, t: nat, q: Request, faults: seq<Fault>)
    returns (events: seq<Event>)
    requires Enabled(light, d, x, StartCreate(t, q)) && q.name !in x.reqmap
    ensures Possible(light, d, x, events)
    ensures AfterCreate(d, x, Run(d, x, events), q, CreateVolume(d, q, x.s, faults))
  {
    var e := StartCreate(t, q);
    var y := Apply(d, x, e);
    var rest := FrontAlone(light, d, y, t, JobOf(d, q), CheckPrimary, faults);
    StartedAndEnded(d, x, y, t, q, CreateVolume(d, q, x.s, faults));
    RunOnward(light, d, x, e, rest);
    events := [e] + rest;
  }

  /**
   So the safety theorem speaks of something: an admissible request whose backend is ready does become live, and may
   then be created again or deleted.
   */
  lemma SomeRunIsLive(light: bool, d: Driver, x: Fleet, q: Request) returns (events: seq<Event>)
    requires Initial(x) && Admissible(d, q) && Ready(Resolve(d, q), x.s)
    requires FirstUse(light, d, x.s, x.phases, JobOf(d, q))
    ensures Possible(light, d, x, events)
    ensures var y := Run(d, x, events); q.name in y.phases && y.phases[q.name] == Live(JobOf(d, q))
    ensures var y := Run(d, x, events);
      Enabled(light, d, y, StartDelete(0, q.name)) && Enabled(light, d, y, StartCreate(0, q))
  {
    events := CreateRunsAlone(light, d, x, 0, q, []);
    CleanAttemptSucceeds(d, q, x.s);
  }

  function DelEnded(x: Fleet, t: nat, j: Job, e: DelEnding): Fleet {
    Fleet(e.state, x.reqmap, x.threads - {t}, if e.deleted then x.phases - {j.v.name} else x.phases)
  }

  lemma {:induction false} DelAlone(light: bool, d: Driver, x: Fleet, t: nat, j: Job, at: DelPc,
      faults: seq<Fault>) returns (events: seq<Event>)
    requires t in x.threads && x.threads[t] == Deleting(j, at) && !Over(at)
    ensures Possible(light, d, x, events)
    ensures Run(d, x, events) == DelEnded(x, t, j, DelRun(j.x, true, at, x.s, faults))
    decreases DelRank(at)
  {
    var e, turn := Move(t, Head(faults)), DelStep(j.x, true, at, x.s, Head(faults));
    var y := MoveDelete(x, t, j, at, Head(faults));
    assert Apply(d, x, e) == y;
    var rest := [];
    if !Over(turn.pc) {
      rest := DelAlone(light, d, y, t, j, turn.pc, Tail(faults));
      assert y.threads - {t} == x.threads - {t};
    }
    RunOnward(light, d, x, e, rest);
    events := [e] + rest;
  }

  /** A genuine job's delete is DeleteVolume on the identifier its create returns. */
  lemma JobDeletes(d: Driver, j: Job, s: State, faults: seq<Fault>)
    requires IsGenuine(d, j)
    ensures DeleteVolume(d, VolId(d, j.q), s, faults) == DelRun(j.x, true, FindFsName, s, faults)
  {
    IdLeadsBack(d, j.q);
  }

  ghost predicate AfterDelete(x: Fleet, y: Fleet, name: string, e: DelEnding)
    requires name in x.phases
  {
    && y.s == e.state && y.reqmap == x.reqmap && y.threads == x.threads
    && y.phases == if e.deleted then x.phases - {name} else x.phases[name := Dying(x.phases[name].j)]
  }

  lemma StartedAndDeleted(d: Driver, x: Fleet, y: Fleet, t: nat, name: string, e: DelEnding)
    requires t !in x.threads && name in x.phases && y == Apply(d, x, StartDelete(t, name))
    requires x.phases[name].j.v.name == name
    ensures AfterDelete(x, DelEnded(y, t, x.phases[name].j, e), name, e)
  {
    assert y.threads - {t} == x.threads;
    assert y.phases - {name} == x.phases - {name};
  }

  /** The same for a delete: it does what DeleteVolume does to the identifier create returned. */
  lemma DeleteRunsAlone(light: bool, d: Driver, x: Fleet, t: nat, name: string, faults: seq<Fault>)
    returns (events: seq<Event>)
    requires Enabled(light, d, x, StartDelete(t, name)) && IsGenuine(d, x.phases[name].j)
    requires x.phases[name].j.q.name == name
    ensures Possible(light, d, x, events)
    ensures AfterDelete(x, Run(d, x, events), name, DeleteVolume(d, VolId(d, x.phases[name].j.q), x.s, faults))
  {
    var e, j := StartDelete(t, name), x.phases[name].j;
    var y := Apply(d, x, e);
    JobDeletes(d, j, x.s, faults);
    var rest := DelAlone(light, d, y, t, j, FindFsName, faults);
    StartedAndDeleted(d, x, y, t, name, DelRun(j.x, true, FindFsName, x.s, faults));
    RunOnward(light, d, x, e, rest);
    events := [e] + rest;
  }
}
