/**
 Many requests in flight over one backend, one connector call per move. The orchestrator keeps creates and deletes of
 one name apart; everything else interleaves freely, and every call may be lost or answered late.
 */
module Fleet {
  import opened Numbers
  import opened Backend
  import opened Create
  import opened Converge
  import opened Delete
  import opened Undo
  import opened Frames
  import opened VolumeId

  /** A request, what create has resolved for it, and what a delete of its identifier works on. */
  datatype Job = Job(q: Request, v: Volume, x: Doomed)

  datatype Thread = Creating(j: Job, pc: Pc) | Deleting(j: Job, at: DelPc)

  /** What the orchestrator knows of a name: a create was sent, one has succeeded, or a delete was sent. */
  datatype Phase = Building(j: Job) | Live(j: Job) | Dying(j: Job)

  datatype Fleet = Fleet(s: State, reqmap: map<string, UInt64>, threads: map<nat, Thread>, phases: map<string, Phase>)

  datatype Event = StartCreate(t: nat, q: Request) | StartDelete(t: nat, name: string) | Move(t: nat, f: Fault)

  function JobOf(d: Driver, q: Request): Job {
    Job(q, Resolve(d, q),
        match GetVolIdMembers(VolId(d, q))
        case Valid(m) => DoomedBy(d, m)
        case Invalid => Doomed("", "", "", true, "", Loc("", []), map[]))
  }

  /**
   Requests whose identifiers can be read back and whose static checks pass, and whose cluster id names the owner of the
   filesystem: the data then goes where links to the requested filesystem lead.
   */
  predicate Admissible(d: Driver, q: Request) {
    GoodIds(d, q) && FrontOk(d, q) && Resolve(d, q).info.device == Resolve(d, q).localDevice
  }

  /** The same request, or the same but for the size, where both sizes are ones whose limit reads as set. */
  predicate Alike(a: Request, b: Request) {
    && a == b.(size := a.size)
    && (a.size == b.size || !a.isFileset || (a.size <= UINT64 - KIB && b.size <= UINT64 - KIB))
  }

  /** The volume has its tree, or will have it: a fileset that is being deleted may be gone for good. */
  predicate Rooted(s: State, p: Phase) {
    p.Dying? && p.j.v.isFileset ==> Key(p.j.v) in s.filesets
  }

  /** The volumes that are looked after: fileset volumes always, lightweight ones if so wished. */
  predicate Minded(light: bool, v: Volume) {
    v.isFileset || light
  }

  /** Deleting v takes no data from u. */
  predicate Spared(light: bool, s: State, u: Phase, v: Phase) {
    Minded(light, u.j.v) && Rooted(s, u) && Rooted(s, v) ==> !Within(Place(u.j.v, s), Root(v.j.v, s))
  }

  /**
   What can be checked when a name comes into use: nothing is in its link's place, its tree holds its data and no
   volume's link, and neither it nor any volume in use has its data in the tree of the other.
   */
  ghost predicate FirstUse(light: bool, d: Driver, s: State, phases: map<string, Phase>, j: Job) {
    && !Present(s, j.v.slnk)
    && OwnTree(j.v, s)
    && OffLinks(Links(d), Root(j.v, s))
    && (forall n :: n in phases ==>
      Spared(light, s, phases[n], Building(j)) && Spared(light, s, Building(j), phases[n]))
  }

  ghost predicate Enabled(light: bool, d: Driver, x: Fleet, e: Event) {
    match e
    case StartCreate(t, q) =>
      t !in x.threads && Admissible(d, q) &&
      if q.name in x.phases then Alike(x.phases[q.name].j.q, q) && !x.phases[q.name].Dying?
      else FirstUse(light, d, x.s, x.phases, JobOf(d, q))
    case StartDelete(t, name) =>
      t !in x.threads && name in x.phases && !x.phases[name].Building? &&
      forall u :: u in x.threads ==> x.threads[u].j.v.name != name
    case Move(t, _) => t in x.threads
  }

  /** A create's move up to admission; check and insertion of the reqmap entry are one step. */
  function MoveFront(d: Driver, x: Fleet, t: nat, j: Job, pc: Pc, f: Fault): Fleet
    requires BeforeAdmission(pc)
  {
    if pc == Admission then
      if Refusal(x.reqmap, j.v).Some? then x.(threads := x.threads - {t})
      else x.(reqmap := x.reqmap[j.v.name := j.v.size], threads := x.threads[t := Creating(j, BodyStart(j.v))])
    else
      var next := Read(x.s, f, FrontNext(d, j.q, pc)).pc;
      x.(threads := if next.Done? then x.threads - {t} else x.threads[t := Creating(j, next)])
  }

  /** A create's move past admission; whatever ends it, it takes its own entry away. */
  function MoveBody(x: Fleet, t: nat, j: Job, pc: Pc, f: Fault): Fleet
    requires Admitted(pc)
  {
    var turn := BodyStep(j.v, pc, x.s, f);
    if !turn.pc.Done? then Fleet(turn.state, x.reqmap, x.threads[t := Creating(j, turn.pc)], x.phases)
    else Fleet(turn.state, x.reqmap - {j.v.name}, x.threads - {t},
               if turn.pc.outcome.Created? then x.phases[j.v.name := Live(j)] else x.phases)
  }

  function MoveDelete(x: Fleet, t: nat, j: Job, at: DelPc, f: Fault): Fleet
    requires !Over(at)
  {
    var turn := DelStep(j.x, true, at, x.s, f);
    if Over(turn.pc)
    then Fleet(turn.state, x.reqmap, x.threads - {t}, if turn.pc.Deleted? then x.phases - {j.v.name} else x.phases)
    else Fleet(turn.state, x.reqmap, x.threads[t := Deleting(j, turn.pc)], x.phases)
  }

  /** A thread that has ended is gone; one that has not is at a real program point. */
  predicate Running(th: Thread) {
    match th
    case Creating(_, pc) => !pc.Done?
    case Deleting(_, at) => !Over(at)
  }

  /** One connector call of a running request, or its admission. */
  function Moved(d: Driver, x: Fleet, t: nat, f: Fault): Fleet {
    if t !in x.threads || !Running(x.threads[t]) then x
    else
      match x.threads[t]
      case Creating(j, pc) => if Admitted(pc) then MoveBody(x, t, j, pc, f) else MoveFront(d, x, t, j, pc, f)
      case Deleting(j, at) => MoveDelete(x, t, j, at, f)
  }

  function Apply(d: Driver, x: Fleet, e: Event): Fleet {
    match e
    case StartCreate(t, q) =>
      var j := JobOf(d, q);
      x.(threads := x.threads[t := Creating(j, CheckPrimary)],
         phases := if q.name in x.phases then x.phases else x.phases[q.name := Building(j)])
    case StartDelete(t, name) =>
      if name !in x.phases then x
      else x.(threads := x.threads[t := Deleting(x.phases[name].j, FindFsName)],
              phases := x.phases[name := Dying(x.phases[name].j)])
    case Move(t, f) => Moved(d, x, t, f)
  }

  // ---------- runs ----------

  function Run(d: Driver, x: Fleet, events: seq<Event>): Fleet {
    if events == [] then x else Apply(d, Run(d, x, events[..|events| - 1]), events[|events| - 1])
  }

  /** Every event of the run is one the orchestrator or a running request could cause when it happens. */
  ghost predicate Possible(light: bool, d: Driver, x: Fleet, events: seq<Event>) {
    events == [] ||
    (Possible(light, d, x, events[..|events| - 1]) &&
      Enabled(light, d, Run(d, x, events[..|events| - 1]), events[|events| - 1]))
  }

  predicate HoldsEntry(th: Thread) {
    th.Creating? && Admitted(th.pc)
  }

  /** The driver has just started: nothing in flight, no volume in use, any backend. */
  predicate Initial(x: Fleet) {
    x.reqmap == map[] && x.threads == map[] && x.phases == map[]
  }
}
