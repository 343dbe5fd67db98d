/**
  What one create step does to its own volume: it keeps what is known, only adds pieces, and never changes the goal.
*/
module Progress {
  import opened Numbers
  import opened Backend
  import opened Create
  import opened Wrappers

  /** All the backend shows of one volume. */
  datatype View = View(fileset: Option<Fileset>, dir: bool, slnk: bool, slnkTo: Option<Loc>)

  function Link(fileset: Option<Fileset>): string {
    if fileset.Some? then fileset.value.link else ""
  }

  predicate HasPlace(v: Volume, fileset: Option<Fileset>) {
    v.isFileset ==> Linked(Link(fileset))
  }

  function FilesetAt(s: State, k: FsetKey): Option<Fileset> {
    if k in s.filesets then Some(s.filesets[k]) else None
  }

  predicate LinkedNow(v: Volume, s: State) {
    v.isFileset && Key(v) in s.filesets && Linked(s.filesets[Key(v)].link)
  }

  function See(v: Volume, s: State): View {
    var fileset := if v.isFileset then FilesetAt(s, Key(v)) else None;
    View(fileset,
         HasPlace(v, fileset) && Present(s, DataLoc(v, DataDir(v, Link(fileset)))),
         Present(s, v.slnk),
         if v.slnk in s.symlinks then Some(s.symlinks[v.slnk]) else None)
  }

  /** The limit is the one this size is stored as, or reads back as the size. */
  predicate QuotaHolds(v: Volume, limitKiB: Limit) {
    v.size == 0 || LimitBytes(limitKiB) == v.size || limitKiB == Kib(v.size)
  }

  function Count(missing: bool): nat {
    if missing then 1 else 0
  }

  /** How many of fileset, link, quota, directory and symbolic link are still missing. */
  function Missing(v: Volume, w: View): nat {
    (if v.isFileset
     then Count(w.fileset.None?) + Count(!Linked(Link(w.fileset)))
          + Count(w.fileset.None? || !QuotaHolds(v, w.fileset.value.limitKiB))
     else 0) + Count(!w.dir) + Count(!w.slnk)
  }

  /** What a request knows at each program point. */
  predicate Knows(v: Volume, pc: Pc, w: View) {
    var found := w.fileset.Some?;
    var linked := HasPlace(v, w.fileset) && (v.isFileset ==> found);
    var placed := linked && (v.isFileset ==> QuotaHolds(v, w.fileset.value.limitKiB));
    match pc
    case CheckQuotaOn => v.isFileset && v.size != 0
    case MakeFileset => v.isFileset && !found
    case FindAgain => v.isFileset && found
    case LinkIt => v.isFileset && found && !linked
    case FindLinked => v.isFileset && linked
    case ReadQuota(link) => v.isFileset && linked && link == Link(w.fileset) && v.size != 0
    case WriteQuota(link) =>
      v.isFileset && linked && link == Link(w.fileset) && v.size != 0 && LimitBytes(w.fileset.value.limitKiB) == 0
    case FindBase => !v.isFileset
    case FindDir(t) => placed && t == DataDir(v, Link(w.fileset))
    case MakeDir(t) => placed && t == DataDir(v, Link(w.fileset)) && !w.dir
    case FindSlnk(t) => placed && t == DataDir(v, Link(w.fileset)) && w.dir
    case MakeSlnk(t) => placed && t == DataDir(v, Link(w.fileset)) && w.dir && !w.slnk
    case Done(Created(id)) => placed && w.dir && w.slnk && id == v.id
    case Done(Failed(_)) => true
    case _ => pc.Admission? || BeforeAdmission(pc) || v.isFileset
  }

  predicate WfVolume(v: Volume) {
    Linked(v.junction)
  }

  lemma ResolvedIsWf(d: Driver, q: Request)
    ensures WfVolume(Resolve(d, q))
  {
    var mount := Resolve(d, q).info.mount;
    assert (mount + "/" + q.name)[|mount|] == '/';
  }

  predicate Mutates(pc: Pc) {
    pc.MakeFileset? || pc.LinkIt? || pc.WriteQuota? || pc.MakeDir? || pc.MakeSlnk?
  }

  // ---------- each kind of step ----------

  lemma AtTargetKnows(v: Volume, link: string, w: View)
    requires v.isFileset && w.fileset.Some? && Linked(Link(w.fileset)) && link == Link(w.fileset)
    requires QuotaHolds(v, w.fileset.value.limitKiB)
    ensures Knows(v, AtTarget(v, link), w)
  {
  }

  lemma QuotaWritten(v: Volume, s: State, k: FsetKey)
    requires WfVolume(v) && v.isFileset && k in s.filesets
    ensures SetFilesetQuota(s, k, FormatUint(v.size)) ==
      Effect(s.(filesets := s.filesets[k := s.filesets[k].(limitKiB := Kib(v.size))]), true)
  {
    StoredPrinted(v.size);
  }

  /**
   A step keeps what the request knows and removes no piece; a mutating call that reports success adds one. Only the
   quota call may instead find its very limit in place, at the top of the size range, where that limit reads as unset.
   */
  ghost predicate Advances(v: Volume, pc: Pc, s: State, f: Fault, turn: Turn) {
    var before, after := See(v, s), See(v, turn.state);
    && Knows(v, turn.pc, after)
    && Missing(v, after) <= Missing(v, before)
    && (Mutates(pc) && f == Clean && turn.pc != BROKEN ==>
         Missing(v, after) < Missing(v, before) || (turn.state == s && pc.WriteQuota? && v.size > UINT64 - KIB))
  }

  lemma LookStepKnows(v: Volume, pc: Pc, s: State, f: Fault)
    requires pc.ReadOwnerFs? || pc.CheckQuotaOn? || pc.FindFileset? || pc.FindAgain? || pc.FindLinked?
    requires Knows(v, pc, See(v, s))
    ensures Advances(v, pc, s, f, FilesetStep(v, pc, s, f))
  {
    var w := See(v, s);
    if w.fileset.Some? && v.size == 0 && Linked(w.fileset.value.link) {
      AtTargetKnows(v, w.fileset.value.link, w);
    }
  }

  lemma MakeStepKnows(v: Volume, pc: Pc, s: State, f: Fault)
    requires WfVolume(v) && (pc.MakeFileset? || pc.LinkIt?)
    requires Knows(v, pc, See(v, s))
    ensures Advances(v, pc, s, f, FilesetStep(v, pc, s, f))
  {
  }

  /** What follows from the limit that is in place, through its printed form. */
  lemma QuotaLeads(v: Volume, link: string, s: State, k: FsetKey)
    requires k in s.filesets
    ensures AfterQuota(v, link, ListQuota(s, k)) ==
      var n := LimitBytes(s.filesets[k].limitKiB);
      if n == 0 then WriteQuota(link) else if n == v.size then AtTarget(v, link) else Done(Failed(QuotaMismatch))
  {
    QuotaSeen(s, k);
  }

  lemma ReadQuotaKnows(v: Volume, link: string, s: State, f: Fault)
    requires WfVolume(v) && Knows(v, ReadQuota(link), See(v, s))
    ensures Advances(v, ReadQuota(link), s, f, FilesetStep(v, ReadQuota(link), s, f))
  {
    var k := Key(v);
    QuotaLeads(v, link, s, k);
    assert See(v, s).fileset == Some(s.filesets[k]);
    if LimitBytes(s.filesets[k].limitKiB) == v.size {
      AtTargetKnows(v, link, See(v, s));
    }
  }

  /** Writing the limit shows in nothing but the limit. */
  lemma LimitShows(v: Volume, s: State, s': State)
    requires WfVolume(v) && v.isFileset && Key(v) in s.filesets
    requires s' == SetFilesetQuota(s, Key(v), FormatUint(v.size)).state
    ensures See(v, s') == See(v, s).(fileset := Some(s.filesets[Key(v)].(limitKiB := Kib(v.size))))
    ensures Kib(v.size) == s.filesets[Key(v)].limitKiB ==> s' == s
  {
    QuotaWritten(v, s, Key(v));
  }

  lemma WriteQuotaKnows(v: Volume, link: string, s: State, f: Fault)
    requires WfVolume(v) && Knows(v, WriteQuota(link), See(v, s))
    ensures Advances(v, WriteQuota(link), s, f, FilesetStep(v, WriteQuota(link), s, f))
  {
    var k := Key(v);
    var s' := SetFilesetQuota(s, k, FormatUint(v.size)).state;
    assert See(v, s).fileset == Some(s.filesets[k]);
    LimitShows(v, s, s');
    StoredReadsBack(v.size);
    AtTargetKnows(v, link, See(v, s'));
    assert FilesetStep(v, WriteQuota(link), s, f) ==
      Turn(if f == Clean then AtTarget(v, link) else BROKEN, if f == Lost then s else s');
  }

  lemma TreeStepKnows(v: Volume, pc: Pc, s: State, f: Fault)
    requires OnTree(pc) && Knows(v, pc, See(v, s))
    ensures Advances(v, pc, s, f, TreeStep(v, pc, s, f))
  {
  }

  /** Monotone progress of every step after admission, under every fault. */
  lemma BodyStepAdvances(v: Volume, pc: Pc, s: State, f: Fault)
    requires WfVolume(v) && Admitted(pc) && Knows(v, pc, See(v, s))
    ensures Advances(v, pc, s, f, BodyStep(v, pc, s, f))
  {
    if OnTree(pc) {
      TreeStepKnows(v, pc, s, f);
    } else if pc.MakeFileset? || pc.LinkIt? {
      MakeStepKnows(v, pc, s, f);
    } else if pc.ReadQuota? {
      ReadQuotaKnows(v, pc.link, s, f);
    } else if pc.WriteQuota? {
      WriteQuotaKnows(v, pc.link, s, f);
    } else {
      LookStepKnows(v, pc, s, f);
    }
  }

  /** Success means that no piece is missing. */
  lemma CreatedIsComplete(v: Volume, id: string, w: View)
    requires Knows(v, Done(Created(id)), w)
    ensures Missing(v, w) == 0
  {
  }
}
