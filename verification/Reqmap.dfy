/**
 The request map, over all runs whatever the orchestrator does: requests of any kind and size for any name, creates and
 deletes of one name at once, each thread id used once at a time.
 */
module Reqmap {
  import opened Numbers
  import opened Wrappers
  import opened Backend
  import opened Create
  import opened Delete
  import opened F = Fleet

  /** A new request comes in, or one that is running makes its next call. */
  predicate Free(x: Fleet, e: Event) {
    match e
    case StartCreate(t, _) => t !in x.threads
    case StartDelete(t, _) => t !in x.threads
    case Move(t, _) => t in x.threads
  }

  ghost predicate FreeRun(d: Driver, x: Fleet, events: seq<Event>) {
    events == [] || (FreeRun(d, x, events[..|events| - 1]) &&
      Free(Run(d, x, events[..|events| - 1]), events[|events| - 1]))
  }

  // ---------- the invariant ----------

  ghost predicate Held(threads: map<nat, Thread>, name: string) {
    exists t :: t in threads && HoldsEntry(threads[t]) && threads[t].j.v.name == name
  }

  /** Each entry is that of an admitted create still running, with its size. */
  ghost predicate Owned(reqmap: map<string, UInt64>, threads: map<nat, Thread>) {
    && (forall n :: n in reqmap ==> Held(threads, n))
    && (forall t :: t in threads && HoldsEntry(threads[t]) ==>
         threads[t].j.v.name in reqmap && reqmap[threads[t].j.v.name] == threads[t].j.v.size)
  }

  ghost predicate OneHolder(threads: map<nat, Thread>) {
    forall t, u :: t in threads && u in threads && t != u && HoldsEntry(threads[t]) && HoldsEntry(threads[u]) ==>
      threads[t].j.v.name != threads[u].j.v.name
  }

  /** A running thread is at a real program point, and a create's is about the request's name and size. */
  predicate Proper(th: Thread) {
    Running(th) && (th.Creating? ==> th.j.v.name == th.j.q.name && th.j.v.size == th.j.q.size)
  }

  ghost predicate MapOk(x: Fleet) {
    Owned(x.reqmap, x.threads) && OneHolder(x.threads) && forall t :: t in x.threads ==> Proper(x.threads[t])
  }

  // ---------- every event keeps it ----------

  /** A thread comes or goes on, without an entry or with the one it had. */
  lemma SameEntries(x: Fleet, y: Fleet, t: nat, th: Thread)
    requires MapOk(x) && y.reqmap == x.reqmap && y.threads == x.threads[t := th] && Proper(th)
    requires t in x.threads ==>
      HoldsEntry(th) == HoldsEntry(x.threads[t]) && (HoldsEntry(th) ==> th.j == x.threads[t].j)
    requires t !in x.threads ==> !HoldsEntry(th)
    ensures MapOk(y)
  {
    forall n | n in y.reqmap ensures Held(y.threads, n) {
      var u :| u in x.threads && HoldsEntry(x.threads[u]) && x.threads[u].j.v.name == n;
      assert u in y.threads && HoldsEntry(y.threads[u]) && y.threads[u].j.v.name == n;
    }
  }

  /** A thread ends and takes its own entry, if it has one, and no other with it. */
  lemma EntryGone(x: Fleet, y: Fleet, t: nat)
    requires MapOk(x) && t in x.threads && y.threads == x.threads - {t}
    requires y.reqmap == if HoldsEntry(x.threads[t]) then x.reqmap - {x.threads[t].j.v.name} else x.reqmap
    ensures MapOk(y)
  {
    forall n | n in y.reqmap ensures Held(y.threads, n) {
      var u :| u in x.threads && HoldsEntry(x.threads[u]) && x.threads[u].j.v.name == n;
      assert u in y.threads && HoldsEntry(y.threads[u]) && y.threads[u].j.v.name == n;
    }
  }

  /** Admission: the name was free, so no other thread holds it. */
  lemma EntryMade(x: Fleet, y: Fleet, t: nat, th: Thread)
    requires MapOk(x) && t in x.threads && x.threads[t].Creating? && !HoldsEntry(x.threads[t])
    requires Proper(th) && HoldsEntry(th) && th.j.v.name !in x.reqmap
    requires y.threads == x.threads[t := th] && y.reqmap == x.reqmap[th.j.v.name := th.j.v.size]
    ensures MapOk(y)
  {
    assert t in y.threads && HoldsEntry(y.threads[t]);
    forall n | n in y.reqmap ensures Held(y.threads, n) {
      if n != th.j.v.name {
        var u :| u in x.threads && HoldsEntry(x.threads[u]) && x.threads[u].j.v.name == n;
        assert u in y.threads && HoldsEntry(y.threads[u]) && y.threads[u].j.v.name == n;
      }
    }
  }

  /** How the map changes at an event. */
  ghost predicate Changes(x: Fleet, e: Event, y: Fleet) {
    match e
    case Move(t, _) =>
      t in x.threads &&
      if HoldsEntry(x.threads[t])
      // its own entry, with its size, is there all the time, and goes when it ends, and only then
      then x.threads[t].j.q.name in x.reqmap && x.reqmap[x.threads[t].j.q.name] == x.threads[t].j.q.size &&
           y.reqmap == if t in y.threads then x.reqmap else x.reqmap - {x.threads[t].j.q.name}
      else if t in y.threads && HoldsEntry(y.threads[t])
      // admitted: the name was free
      then x.threads[t].j.q.name !in x.reqmap && y.reqmap == x.reqmap[x.threads[t].j.q.name := x.threads[t].j.q.size]
      else y.reqmap == x.reqmap
    case _ => y.reqmap == x.reqmap
  }

  lemma BodyKeepsMap(x: Fleet, t: nat, j: Job, pc: Pc, f: Fault, y: Fleet)
    requires MapOk(x) && t in x.threads && x.threads[t] == Creating(j, pc) && Admitted(pc)
    requires y == MoveBody(x, t, j, pc, f)
    ensures MapOk(y) && Changes(x, Move(t, f), y)
  {
    var turn := BodyStep(j.v, pc, x.s, f);
    assert Proper(x.threads[t]);
    if turn.pc.Done? {
      EntryGone(x, y, t);
    } else {
      SameEntries(x, y, t, Creating(j, turn.pc));
    }
  }

  lemma FrontKeepsMap(d: Driver, x: Fleet, t: nat, j: Job, pc: Pc, f: Fault, y: Fleet)
    requires MapOk(x) && t in x.threads && x.threads[t] == Creating(j, pc) && BeforeAdmission(pc)
    requires y == MoveFront(d, x, t, j, pc, f)
    ensures MapOk(y) && Changes(x, Move(t, f), y)
  {
    assert Proper(x.threads[t]);
    if pc == Admission {
      if j.v.name in x.reqmap {
        EntryGone(x, y, t);
      } else {
        EntryMade(x, y, t, Creating(j, BodyStart(j.v)));
      }
    } else {
      var next := Read(x.s, f, FrontNext(d, j.q, pc)).pc;
      if next.Done? {
        EntryGone(x, y, t);
      } else {
        SameEntries(x, y, t, Creating(j, next));
      }
    }
  }

  lemma DeleteKeepsMap(x: Fleet, t: nat, j: Job, at: DelPc, f: Fault, y: Fleet)
    requires MapOk(x) && t in x.threads && x.threads[t] == Deleting(j, at) && !Over(at)
    requires y == MoveDelete(x, t, j, at, f)
    ensures MapOk(y) && Changes(x, Move(t, f), y)
  {
    var turn := DelStep(j.x, true, at, x.s, f);
    if Over(turn.pc) {
      EntryGone(x, y, t);
    } else {
      SameEntries(x, y, t, Deleting(j, turn.pc));
    }
  }

  lemma MoveKeepsMap(d: Driver, x: Fleet, t: nat, f: Fault, y: Fleet)
    requires MapOk(x) && t in x.threads && y == Moved(d, x, t, f)
    ensures MapOk(y) && Changes(x, Move(t, f), y)
  {
    assert Proper(x.threads[t]);
    match x.threads[t] {
      case Creating(j, pc) =>
        if Admitted(pc) {
          assert y == MoveBody(x, t, j, pc, f);
          BodyKeepsMap(x, t, j, pc, f, y);
        } else {
          assert y == MoveFront(d, x, t, j, pc, f);
          FrontKeepsMap(d, x, t, j, pc, f, y);
        }
      case Deleting(j, at) =>
        assert y == MoveDelete(x, t, j, at, f);
        DeleteKeepsMap(x, t, j, at, f, y);
    }
  }

  lemma StepKeepsMap(d: Driver, x: Fleet, e: Event, y: Fleet)
    requires MapOk(x) && Free(x, e) && y == Apply(d, x, e)
    ensures MapOk(y) && Changes(x, e, y)
  {
    match e {
      case StartCreate(t, q) => SameEntries(x, y, t, Creating(JobOf(d, q), CheckPrimary));
      case StartDelete(t, name) =>
        if name in x.phases {
          SameEntries(x, y, t, Deleting(x.phases[name].j, FindFsName));
        }
      case Move(t, f) => MoveKeepsMap(d, x, t, f, y);
    }
  }

  lemma {:induction false} RunKeepsMap(d: Driver, x: Fleet, events: seq<Event>)
    requires MapOk(x) && FreeRun(d, x, events)
    ensures MapOk(Run(d, x, events))
    decreases |events|
  {
    if events != [] {
      RunKeepsMap(d, x, events[..|events| - 1]);
      StepKeepsMap(d, Run(d, x, events[..|events| - 1]), events[|events| - 1], Run(d, x, events));
    }
  }

  // ---------- what every run guarantees ----------

  /**
   In every state that any requests can lead to, the map holds exactly the names of the admitted creates still running,
   each with its size, and never two of one name.
   */
  lemma MapIsExact(d: Driver, x: Fleet, events: seq<Event>)
    requires Initial(x) && FreeRun(d, x, events)
    ensures var y := Run(d, x, events);
      && (forall n :: n in y.reqmap <==>
        exists t :: t in y.threads && HoldsEntry(y.threads[t]) && y.threads[t].j.q.name == n)
      && (forall t :: t in y.threads && HoldsEntry(y.threads[t]) ==>
        y.reqmap[y.threads[t].j.q.name] == y.threads[t].j.q.size)
      && (forall t, u ::
        t in y.threads && u in y.threads && t != u && HoldsEntry(y.threads[t]) && HoldsEntry(y.threads[u]) ==>
        y.threads[t].j.q.name != y.threads[u].j.q.name)
  {
    RunKeepsMap(d, x, events);
    var y := Run(d, x, events);
    assert forall t :: t in y.threads ==> Proper(y.threads[t]);
    forall n | n in y.reqmap
      ensures exists t :: t in y.threads && HoldsEntry(y.threads[t]) && y.threads[t].j.q.name == n
    {
      assert Held(y.threads, n);
    }
  }

  /**
   After any run, each event changes the map as it should: only admission adds an entry, for a name that had none; a
   create that ends takes its own entry, and only that; nothing else touches the map.
   */
  lemma EntriesComeAndGo(d: Driver, x: Fleet, events: seq<Event>, e: Event)
    requires Initial(x) && FreeRun(d, x, events) && Free(Run(d, x, events), e)
    ensures var y := Run(d, x, events); Changes(y, e, Apply(d, y, e))
  {
    RunKeepsMap(d, x, events);
    StepKeepsMap(d, Run(d, x, events), e, Apply(d, Run(d, x, events), e));
  }

  /** Another thread is past admission with the same name, and with the same size or another one. */
  ghost predicate InProcess(threads: map<nat, Thread>, q: Request, sameSize: bool) {
    exists t :: t in threads && HoldsEntry(threads[t]) && threads[t].j.q.name == q.name &&
      (threads[t].j.q.size == q.size <==> sameSize)
  }

  /**
   A create that comes to admission is refused exactly if another one of its name is in process, with the error for the
   same size exactly if that one's size is the same; refused, it leaves the map and the backend as they are.
   */
  lemma RefusedExactly(d: Driver, x: Fleet, events: seq<Event>, t: nat, f: Fault)
    requires Initial(x) && FreeRun(d, x, events)
    requires var y := Run(d, x, events); t in y.threads && y.threads[t].Creating? && y.threads[t].pc == Admission
    ensures var y := Run(d, x, events); var j := y.threads[t].j; var r := Refusal(y.reqmap, j.v);
      && (r == Some(AlreadyInProcess) <==> InProcess(y.threads, j.q, true))
      && (r == Some(SizeDiffers) <==> InProcess(y.threads, j.q, false))
      && (r == None <==> !InProcess(y.threads, j.q, true) && !InProcess(y.threads, j.q, false))
      && (r.Some? ==> Moved(d, y, t, f) == y.(threads := y.threads - {t}))
  {
    var y := Run(d, x, events);
    RunKeepsMap(d, x, events);
    assert forall u :: u in y.threads ==> Proper(y.threads[u]);
    var q := y.threads[t].j.q;
    if q.name in y.reqmap {
      assert Held(y.threads, q.name);
      var u :| u in y.threads && HoldsEntry(y.threads[u]) && y.threads[u].j.v.name == q.name;
      assert InProcess(y.threads, q, y.threads[u].j.q.size == q.size);
    }
  }
}
