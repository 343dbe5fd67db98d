/**
 What every run of interleaved creates and deletes guarantees, when the orchestrator keeps creates and deletes of one
 name apart and a name comes into use only where it is in nobody's way. With light set, lightweight volumes are looked
 after like fileset volumes; without it they may lie in anyone's way themselves.
 */
module Safety {
  import opened Numbers
  import opened Backend
  import opened Create
  import opened Progress
  import opened Converge
  import opened Delete
  import opened Undo
  import opened Frames
  import opened F = Fleet
  import Reqmap

  // ---------- jobs ----------

  /** What an admissible request's job has. */
  predicate JobOk(d: Driver, j: Job) {
    var v, x := j.v, j.x;
    && v.name == j.q.name && v.size == j.q.size && v.isFileset == j.q.isFileset
    && Named(Links(d), v) && Sound(v) && v.localDevice == v.info.device
    && x.slnk == v.slnk && x.isFilesetBased == v.isFileset
    && (v.isFileset ==> x.device == v.info.device && x.fsetName == v.name)
  }

  predicate IsGenuine(d: Driver, j: Job) {
    Admissible(d, j.q) && j == JobOf(d, j.q)
  }

  lemma GenuineIsOk(d: Driver, j: Job)
    requires IsGenuine(d, j)
    ensures JobOk(d, j)
  {
    ResolvedIsSound(d, j.q);
    ResolvedIsNamed(d, j.q);
    IdLeadsBack(d, j.q);
  }

  /** Jobs of alike requests: one volume, up to the size it is asked for with. */
  predicate AlikeJobs(a: Job, b: Job) {
    Alike(a.q, b.q) && b.x == a.x && b.v == a.v.(size := b.q.size) && a.v.size == a.q.size
  }

  lemma GenuineAlike(d: Driver, a: Job, b: Job)
    requires IsGenuine(d, a) && IsGenuine(d, b) && Alike(a.q, b.q)
    ensures AlikeJobs(a, b)
  {
    assert VolId(d, a.q) == VolId(d, b.q);
  }

  lemma AlikeOk(d: Driver, a: Job, b: Job)
    requires JobOk(d, a) && AlikeJobs(a, b)
    ensures JobOk(d, b)
  {
  }

  /** All but the size is the same. */
  lemma SizeUnseen(a: Volume, b: Volume, s: State)
    requires b == a.(size := b.size)
    ensures See(b, s) == See(a, s) && Goal(b, s) == Goal(a, s) && Place(b, s) == Place(a, s) && Root(b, s) == Root(a, s)
    ensures LinkTrue(b, See(b, s)) <==> LinkTrue(a, See(a, s))
  {
  }

  // ---------- the invariant ----------

  /** An existing link leads to the data directory. */
  predicate LinkTrue(v: Volume, w: View) {
    w.slnkTo.Some? ==> HasPlace(v, w.fileset) && w.slnkTo.value == LinkTo(v, DataDir(v, Link(w.fileset)))
  }

  ghost predicate VolumeOk(light: bool, d: Driver, s: State, p: Phase) {
    var v := p.j.v;
    && JobOk(d, p.j)
    && v.slnk !in s.dirs
    && (Minded(light, v) && p.Live? ==> Missing(v, See(v, s)) == 0)
    && ((v.isFileset && p.Dying?) || LinkTrue(v, See(v, s)))
    && (Rooted(s, p) ==> OwnTree(v, s) && OffLinks(Links(d), Root(v, s)))
  }

  /** A lightweight volume's program points are about its one directory. */
  predicate LightAims(v: Volume, pc: Pc) {
    OnTree(pc) && (pc.FindDir? || pc.MakeDir? || pc.FindSlnk? || pc.MakeSlnk? ==> pc.target == DataDir(v, ""))
  }

  /**
    What a request knows at a program point; of a lightweight volume that is not looked after, only what it is about.
  */
  predicate Fit(light: bool, v: Volume, pc: Pc, s: State) {
    if Minded(light, v) then Knows(v, pc, See(v, s)) else LightAims(v, pc)
  }

  lemma FitIsSure(light: bool, v: Volume, pc: Pc, s: State)
    requires Admitted(pc) && Fit(light, v, pc, s)
    ensures Sure(v, pc, s)
  {
    if Minded(light, v) {
      KnowsAims(v, pc, s);
    } else {
      SameDirectory(v, FinalFileset(v, s).link);
    }
  }

  predicate Aware(light: bool, s: State, th: Thread) {
    match th
    case Creating(j, pc) => !pc.Done? && (Admitted(pc) ==> Fit(light, j.v, pc, s))
    case Deleting(j, at) => !Over(at) && OnCourse(j.x, at)
  }

  predicate ThreadOk(light: bool, s: State, phases: map<string, Phase>, th: Thread) {
    && th.j.v.name in phases && AlikeJobs(phases[th.j.v.name].j, th.j)
    && (th.Deleting? <==> phases[th.j.v.name].Dying?)
    && Aware(light, s, th)
  }

  ghost predicate PhasesOk(light: bool, d: Driver, s: State, phases: map<string, Phase>) {
    && (forall n :: n in phases ==> phases[n].j.v.name == n && VolumeOk(light, d, s, phases[n]))
    && (forall m, n :: m in phases && n in phases && m != n ==> Spared(light, s, phases[m], phases[n]))
  }

  ghost predicate ThreadsOk(light: bool, s: State, phases: map<string, Phase>, threads: map<nat, Thread>) {
    forall t :: t in threads ==> ThreadOk(light, s, phases, threads[t])
  }

  /** A delete is the only request for its name. */
  ghost predicate DeletesAlone(threads: map<nat, Thread>) {
    forall t, u :: t in threads && u in threads && t != u && threads[t].j.v.name == threads[u].j.v.name ==>
      threads[t].Creating? && threads[u].Creating?
  }

  ghost predicate Inv(light: bool, d: Driver, x: Fleet) {
    && PhasesOk(light, d, x.s, x.phases)
    && ThreadsOk(light, x.s, x.phases, x.threads)
    && DeletesAlone(x.threads)
    && Reqmap.MapOk(x)
  }

  // ---------- pairs of volumes ----------

  /** Two volumes go on sparing each other when their places stay. */
  lemma StillSpared(light: bool, s: State, s': State, u: Phase, v: Phase)
    requires Spared(light, s, u, v)
    requires Place(u.j.v, s') == Place(u.j.v, s) && Root(v.j.v, s') == Root(v.j.v, s)
    requires (Rooted(s', u) ==> Rooted(s, u)) && (Rooted(s', v) ==> Rooted(s, v))
    ensures Spared(light, s', u, v)
  {
  }

  lemma SameFileset(u: Volume, s: State, s': State)
    requires FilesetAt(s', Key(u)) == FilesetAt(s, Key(u))
    ensures Root(u, s') == Root(u, s) && Place(u, s') == Place(u, s)
    ensures Key(u) in s'.filesets <==> Key(u) in s.filesets
  {
  }

  /** What a volume looks at is its own to have. */
  lemma PlaceIsRooted(u: Phase, s: State)
    requires HasPlace(u.j.v, See(u.j.v, s).fileset)
    ensures Rooted(s, u)
  {
  }

  lemma LinksDiffer(links: Loc, u: Volume, v: Volume)
    requires Named(links, u) && Named(links, v) && u.name != v.name
    ensures u.slnk != v.slnk
  {
    LastSame(links.path, u.name, links.path, v.name);
  }

  // ---------- a create's step and other volumes ----------

  /** A create's step spares every volume of another name: what it shows stays as it is. */
  lemma CreateSpares(light: bool, d: Driver, j: Job, pc: Pc, s: State, f: Fault, p: Phase, u: Phase)
    requires Admitted(pc) && Fit(light, j.v, pc, s) && AlikeJobs(p.j, j) && VolumeOk(light, d, s, p) && !p.Dying?
    requires VolumeOk(light, d, s, u) && u.j.v.name != p.j.v.name && Spared(light, s, u, p)
    ensures var s' := BodyStep(j.v, pc, s, f).state;
      && FilesetAt(s', Key(u.j.v)) == FilesetAt(s, Key(u.j.v))
      && VolumeOk(light, d, s', u) && (Minded(light, u.j.v) ==> See(u.j.v, s') == See(u.j.v, s))
  {
    var v, w := j.v, u.j.v;
    var s' := BodyStep(v, pc, s, f).state;
    var k, root, link := Key(v), Root(v, s), v.slnk;
    SizeUnseen(p.j.v, v, s);
    FitIsSure(light, v, pc, s);
    CreateFootprint(v, pc, s, f);
    LinksDiffer(Links(d), w, v);
    SameElsewhere(s, s', k, root, link, w.slnk);
    SameOtherFileset(s, s', k, Key(w));
    SameFileset(w, s, s');
    assert !Within(w.slnk, root);
    if Minded(light, w) {
      if HasPlace(w, See(w, s).fileset) {
        PlaceIsRooted(u, s);
        PlaceOffLinks(Links(d), w, s, v.name);
      }
      SameView(w, s, s', k, root, link);
    }
  }

  // ---------- a create's step and its own volume ----------

  lemma LinkStaysTrue(v: Volume, pc: Pc, s: State, f: Fault)
    requires WfVolume(v) && Sure(v, pc, s) && LinkTrue(v, See(v, s)) && v.slnk !in s.dirs
    ensures LinkTrue(v, See(v, BodyStep(v, pc, s, f).state))
  {
    if OnFileset(pc) {
      FilesetFootprint(v, pc, s, f);
    } else if !v.isFileset {
      SameDirectory(v, Link(See(v, s).fileset));
      SameDirectory(v, FinalFileset(v, s).link);
    }
  }

  lemma LightFits(v: Volume, pc: Pc, s: State, f: Fault)
    requires !v.isFileset && LightAims(v, pc)
    ensures var next := BodyStep(v, pc, s, f).pc; Admitted(next) ==> LightAims(v, next)
  {
    assert v.dirBase + "/" + v.name == DataDir(v, "");
  }

  lemma OwnLinkPathFree(d: Driver, v: Volume, pc: Pc, s: State, f: Fault)
    requires Sure(v, pc, s) && v.slnk !in s.dirs && Named(Links(d), v) && OwnTree(v, s)
    requires OffLinks(Links(d), Root(v, s))
    ensures v.slnk !in BodyStep(v, pc, s, f).state.dirs
  {
    CreateFootprint(v, pc, s, f);
  }

  /** A limit that reads as unset, and holds a size, is that of no size or of one at the very top. */
  lemma UnsetHolds(v: Volume, limitKiB: Limit)
    requires QuotaHolds(v, limitKiB) && LimitBytes(limitKiB) == 0
    ensures v.size == 0 || v.size > UINT64 - KIB
  {
    if v.size != 0 && limitKiB == Kib(v.size) {
      StoredReadsBack(v.size);
    }
  }

  /** A volume that is all there stays so while an alike request goes over it. */
  lemma StaysWhole(j: Job, pc: Pc, s: State, f: Fault, p: Phase)
    requires WfVolume(j.v) && Admitted(pc) && Knows(j.v, pc, See(j.v, s)) && AlikeJobs(p.j, j)
    requires p.j.q.isFileset == j.v.isFileset && j.v.size == j.q.size && Missing(p.j.v, See(p.j.v, s)) == 0
    ensures var s' := BodyStep(j.v, pc, s, f).state; Missing(p.j.v, See(p.j.v, s')) == 0
  {
    var v, w := j.v, p.j.v;
    SizeUnseen(w, v, s);
    if v == w {
      BodyStepAdvances(v, pc, s, f);
    } else if pc.WriteQuota? {
      UnsetHolds(w, s.filesets[Key(v)].limitKiB);
      LimitStays(v, w, pc.link, s, f);
    } else if Mutates(pc) {
      assert false;
    } else {
      assert BodyStep(v, pc, s, f).state == s;
    }
  }

  /** A limit does not matter to a volume without a size. */
  lemma LimitStays(v: Volume, w: Volume, link: string, s: State, f: Fault)
    requires WfVolume(v) && Knows(v, WriteQuota(link), See(v, s)) && v == w.(size := v.size) && w.size == 0
    ensures Missing(w, See(w, FilesetStep(v, WriteQuota(link), s, f).state)) == Missing(w, See(w, s))
  {
    LimitShows(v, s, SetFilesetQuota(s, Key(v), FormatUint(v.size)).state);
    SizeUnseen(w, v, s);
    SizeUnseen(w, v, FilesetStep(v, WriteQuota(link), s, f).state);
  }

  /** A create's step keeps its own volume in order, and success makes it live. */
  lemma CreateOwn(light: bool, d: Driver, j: Job, pc: Pc, s: State, f: Fault, p: Phase)
    requires Admitted(pc) && Fit(light, j.v, pc, s) && AlikeJobs(p.j, j) && !p.Dying? && VolumeOk(light, d, s, p)
    ensures var turn := BodyStep(j.v, pc, s, f);
      && VolumeOk(light, d, turn.state, p)
      && (Admitted(turn.pc) ==> Fit(light, j.v, turn.pc, turn.state))
      && (turn.pc.Done? && turn.pc.outcome.Created? ==> VolumeOk(light, d, turn.state, Live(j)))
  {
    var v, w := j.v, p.j.v;
    var turn := BodyStep(v, pc, s, f);
    AlikeOk(d, p.j, j);
    SizeUnseen(w, v, s);
    SizeUnseen(w, v, turn.state);
    FitIsSure(light, v, pc, s);
    PlaceStays(v, pc, s, f);
    OwnLinkPathFree(d, v, pc, s, f);
    LinkStaysTrue(v, pc, s, f);
    if Minded(light, v) {
      BodyStepAdvances(v, pc, s, f);
      if p.Live? {
        StaysWhole(j, pc, s, f, p);
      }
      if turn.pc.Done? && turn.pc.outcome.Created? {
        CreatedIsComplete(v, turn.pc.outcome.volumeId, See(v, turn.state));
      }
    } else {
      LightFits(v, pc, s, f);
    }
  }

  /** The acting volume and another one go on sparing each other. */
  lemma CreateSparesPair(light: bool, d: Driver, j: Job, pc: Pc, s: State, f: Fault, p: Phase, u: Phase)
    requires Admitted(pc) && Fit(light, j.v, pc, s) && AlikeJobs(p.j, j) && VolumeOk(light, d, s, p) && !p.Dying?
    requires VolumeOk(light, d, s, u) && u.j.v.name != p.j.v.name && Spared(light, s, u, p) && Spared(light, s, p, u)
    ensures var s' := BodyStep(j.v, pc, s, f).state; Spared(light, s', u, p) && Spared(light, s', p, u)
  {
    var v := j.v;
    var s' := BodyStep(v, pc, s, f).state;
    AlikeOk(d, p.j, j);
    FitIsSure(light, v, pc, s);
    PlaceStays(v, pc, s, f);
    SizeUnseen(p.j.v, v, s);
    SizeUnseen(p.j.v, v, s');
    CreateSpares(light, d, j, pc, s, f, p, u);
    SameFileset(u.j.v, s, s');
    StillSpared(light, s, s', u, p);
    StillSpared(light, s, s', p, u);
  }

  // ---------- a delete's step ----------

  /** A delete's step only removes, and of the filesets at most its own. */
  lemma DeleteShrinks(x: Doomed, at: DelPc, s: State, f: Fault)
    requires !Over(at) && OnCourse(x, at) && (x.isFilesetBased ==> x.fsetName != "")
    ensures var s' := DelStep(x, true, at, s, f).state;
      && s'.dirs <= s.dirs
      && (forall k :: k in s'.filesets ==> k in s.filesets && s'.filesets[k] == s.filesets[k])
      && (forall k :: k in s.filesets && !(x.isFilesetBased && k == FsetKey(x.device, x.fsetName)) ==> k in s'.filesets)
      && (forall l :: l in s'.symlinks ==> l in s.symlinks && s'.symlinks[l] == s.symlinks[l])
  {
  }

  lemma SeesPastLink(links: Loc, s: State, u: Phase, v: Volume)
    requires Named(links, u.j.v) && Named(links, v) && u.j.v.name != v.name
    requires Rooted(s, u) ==> OwnTree(u.j.v, s) && OffLinks(links, Root(u.j.v, s))
    ensures See(u.j.v, DeleteSymLnk(s, v.slnk)) == See(u.j.v, s)
  {
    var w, s' := u.j.v, DeleteSymLnk(s, v.slnk);
    assert s'.symlinks - {v.slnk} == s.symlinks - {v.slnk};
    LinksDiffer(links, w, v);
    SameElsewhere(s, s', Key(v), v.slnk, v.slnk, w.slnk);
    if HasPlace(w, See(w, s).fileset) {
      PlaceIsRooted(u, s);
      PlaceOffLinks(links, w, s, v.name);
      PlaceSeen(w, s);
      SameElsewhere(s, s', Key(v), v.slnk, v.slnk, Place(w, s));
    }
  }

  /** What a volume of another name shows, a delete's step leaves. */
  lemma SeenPast(light: bool, d: Driver, j: Job, at: DelPc, s: State, f: Fault, u: Phase)
    requires !Over(at) && OnCourse(j.x, at) && VolumeOk(light, d, s, Dying(j))
    requires VolumeOk(light, d, s, u) && u.j.v.name != j.v.name && Minded(light, u.j.v) && Spared(light, s, u, Dying(j))
    ensures See(u.j.v, DelStep(j.x, true, at, s, f).state) == See(u.j.v, s)
  {
    var v, w, links := j.v, u.j.v, Links(d);
    if HasPlace(w, See(w, s).fileset) {
      PlaceIsRooted(u, s);
    }
    match at {
      case RemoveFileset(name) =>
        assert FsetKey(j.x.device, name) == Key(v);
        SeesPastFileset(links, w, v, s);
      case RemoveDir =>
        PlaceSeen(v, s);
        SeesPastDirectory(links, w, v, s);
      case RemoveSlnk => SeesPastLink(links, s, u, v);
      case _ =>
    }
  }

  /** A delete's step spares every volume of another name. */
  lemma DeleteSpares(light: bool, d: Driver, j: Job, at: DelPc, s: State, f: Fault, u: Phase)
    requires !Over(at) && OnCourse(j.x, at) && VolumeOk(light, d, s, Dying(j))
    requires VolumeOk(light, d, s, u) && u.j.v.name != j.v.name && Spared(light, s, u, Dying(j))
    ensures var s' := DelStep(j.x, true, at, s, f).state;
      && FilesetAt(s', Key(u.j.v)) == FilesetAt(s, Key(u.j.v))
      && VolumeOk(light, d, s', u) && (Minded(light, u.j.v) ==> See(u.j.v, s') == See(u.j.v, s))
  {
    var s' := DelStep(j.x, true, at, s, f).state;
    DeleteShrinks(j.x, at, s, f);
    SameFileset(u.j.v, s, s');
    if Minded(light, u.j.v) {
      SeenPast(light, d, j, at, s, f, u);
    }
  }

  lemma StaysOnCourse(x: Doomed, at: DelPc, s: State, f: Fault)
    requires !Over(at) && OnCourse(x, at)
    ensures OnCourse(x, DelStep(x, true, at, s, f).pc)
  {
  }

  /** A lightweight volume's place is always the same. */
  lemma LightPlaceStays(v: Volume, s: State, s': State)
    requires !v.isFileset
    ensures Place(v, s') == Place(v, s) && Root(v, s') == Root(v, s)
  {
    SameDirectory(v, FinalFileset(v, s).link);
    SameDirectory(v, FinalFileset(v, s').link);
  }

  lemma DeleteOwn(light: bool, d: Driver, j: Job, at: DelPc, s: State, f: Fault)
    requires !Over(at) && OnCourse(j.x, at) && VolumeOk(light, d, s, Dying(j))
    ensures var turn := DelStep(j.x, true, at, s, f);
      VolumeOk(light, d, turn.state, Dying(j)) && OnCourse(j.x, turn.pc)
  {
    var v, s' := j.v, DelStep(j.x, true, at, s, f).state;
    StaysOnCourse(j.x, at, s, f);
    DeleteShrinks(j.x, at, s, f);
    if !v.isFileset {
      LightPlaceStays(v, s, s');
    } else if Rooted(s', Dying(j)) {
      assert FilesetAt(s', Key(v)) == FilesetAt(s, Key(v));
      SameFileset(v, s, s');
    }
  }

  /** The dying volume and another one go on sparing each other. */
  lemma DeleteSparesPair(light: bool, d: Driver, j: Job, at: DelPc, s: State, f: Fault, u: Phase)
    requires !Over(at) && OnCourse(j.x, at) && VolumeOk(light, d, s, Dying(j))
    requires VolumeOk(light, d, s, u) && u.j.v.name != j.v.name
    requires Spared(light, s, u, Dying(j)) && Spared(light, s, Dying(j), u)
    ensures var s' := DelStep(j.x, true, at, s, f).state;
      Spared(light, s', u, Dying(j)) && Spared(light, s', Dying(j), u)
  {
    var v, s' := j.v, DelStep(j.x, true, at, s, f).state;
    DeleteShrinks(j.x, at, s, f);
    DeleteSpares(light, d, j, at, s, f, u);
    SameFileset(u.j.v, s, s');
    if Rooted(s', Dying(j)) {
      if v.isFileset {
        assert FilesetAt(s', Key(v)) == FilesetAt(s, Key(v));
        SameFileset(v, s, s');
      } else {
        LightPlaceStays(v, s, s');
      }
      StillSpared(light, s, s', u, Dying(j));
      StillSpared(light, s, s', Dying(j), u);
    }
  }

  // ---------- phases ----------

  /** What the phases look like after a create's step past admission. */
  lemma BodyPhases(light: bool, d: Driver, s: State, phases: map<string, Phase>, j: Job, pc: Pc, f: Fault)
    requires PhasesOk(light, d, s, phases) && Admitted(pc) && Fit(light, j.v, pc, s)
    requires j.v.name in phases && AlikeJobs(phases[j.v.name].j, j) && !phases[j.v.name].Dying?
    ensures var turn := BodyStep(j.v, pc, s, f);
      && PhasesOk(light, d, turn.state, phases)
      && (Admitted(turn.pc) ==> Fit(light, j.v, turn.pc, turn.state))
      && (turn.pc.Done? && turn.pc.outcome.Created? ==> VolumeOk(light, d, turn.state, Live(j)))
      && (forall n :: n in phases && n != j.v.name && Minded(light, phases[n].j.v) ==>
        See(phases[n].j.v, turn.state) == See(phases[n].j.v, s))
  {
    var name := j.v.name;
    var s' := BodyStep(j.v, pc, s, f).state;
    CreateOwn(light, d, j, pc, s, f, phases[name]);
    forall n | n in phases && n != name
      ensures VolumeOk(light, d, s', phases[n]) && FilesetAt(s', Key(phases[n].j.v)) == FilesetAt(s, Key(phases[n].j.v))
      ensures Minded(light, phases[n].j.v) ==> See(phases[n].j.v, s') == See(phases[n].j.v, s)
      ensures Spared(light, s', phases[n], phases[name]) && Spared(light, s', phases[name], phases[n])
    {
      CreateSpares(light, d, j, pc, s, f, phases[name], phases[n]);
      CreateSparesPair(light, d, j, pc, s, f, phases[name], phases[n]);
    }
    forall m, n | m in phases && n in phases && m != n ensures Spared(light, s', phases[m], phases[n]) {
      if m != name && n != name {
        OthersSpared(light, s, s', phases[m], phases[n]);
      }
    }
  }

  lemma OthersSpared(light: bool, s: State, s': State, u: Phase, v: Phase)
    requires Spared(light, s, u, v)
    requires FilesetAt(s', Key(u.j.v)) == FilesetAt(s, Key(u.j.v))
    requires FilesetAt(s', Key(v.j.v)) == FilesetAt(s, Key(v.j.v))
    ensures Spared(light, s', u, v)
  {
    SameFileset(u.j.v, s, s');
    SameFileset(v.j.v, s, s');
    StillSpared(light, s, s', u, v);
  }

  /** A phase may give way to another one of the same or an alike job that is in order. */
  lemma ReplacePhase(light: bool, d: Driver, s: State, phases: map<string, Phase>, name: string, p: Phase,
                     phases': map<string, Phase>)
    requires PhasesOk(light, d, s, phases) && name in phases && VolumeOk(light, d, s, p) && phases' == phases[name := p]
    requires AlikeJobs(phases[name].j, p.j) && (phases[name].Dying? ==> p.Dying?)
    ensures PhasesOk(light, d, s, phases')
  {
    forall m, n | m in phases' && n in phases' && m != n ensures Spared(light, s, phases'[m], phases'[n]) {
      ReplacedSpared(light, s, phases, name, p, m, n);
    }
  }

  lemma ReplacedSpared(light: bool, s: State, phases: map<string, Phase>, name: string, p: Phase, m: string, n: string)
    requires forall a, b :: a in phases && b in phases && a != b ==> Spared(light, s, phases[a], phases[b])
    requires name in phases && AlikeJobs(phases[name].j, p.j) && (phases[name].Dying? ==> p.Dying?)
    requires m in phases && n in phases && m != n
    ensures Spared(light, s, phases[name := p][m], phases[name := p][n])
  {
    assert Spared(light, s, phases[m], phases[n]) && Spared(light, s, phases[n], phases[m]);
    if m == name {
      StillSparedAlike(light, s, phases[n], phases[m], p);
    } else if n == name {
      StillSparedAlike(light, s, phases[m], phases[n], p);
    }
  }

  lemma StillSparedAlike(light: bool, s: State, u: Phase, v: Phase, w: Phase)
    requires Spared(light, s, u, v) && Spared(light, s, v, u) && AlikeJobs(v.j, w.j) && (v.Dying? ==> w.Dying?)
    ensures Spared(light, s, u, w) && Spared(light, s, w, u)
  {
    SizeUnseen(v.j.v, w.j.v, s);
    assert Rooted(s, w) ==> Rooted(s, v);
  }

  lemma AlikeItself(j: Job)
    requires j.v.size == j.q.size
    ensures AlikeJobs(j, j)
  {
  }

  lemma FirstUsePhases(light: bool, d: Driver, s: State, phases: map<string, Phase>, j: Job, phases': map<string,
      Phase>)
    requires PhasesOk(light, d, s, phases) && JobOk(d, j) && j.v.name !in phases && FirstUse(light, d, s, phases, j)
    requires phases' == phases[j.v.name := Building(j)]
    ensures PhasesOk(light, d, s, phases')
  {
    assert VolumeOk(light, d, s, Building(j));
  }

  lemma DyingPhases(light: bool, d: Driver, s: State, phases: map<string, Phase>, name: string, phases': map<string,
      Phase>)
    requires PhasesOk(light, d, s, phases) && name in phases && phases' == phases[name := Dying(phases[name].j)]
    ensures PhasesOk(light, d, s, phases')
  {
    assert VolumeOk(light, d, s, phases[name]);
    AlikeItself(phases[name].j);
    ReplacePhase(light, d, s, phases, name, Dying(phases[name].j), phases');
  }

  lemma DeletePhases(light: bool, d: Driver, s: State, phases: map<string, Phase>, j: Job, at: DelPc, f: Fault)
    requires PhasesOk(light, d, s, phases) && !Over(at) && OnCourse(j.x, at)
    requires j.v.name in phases && phases[j.v.name].Dying? && AlikeJobs(phases[j.v.name].j, j)
    ensures var turn := DelStep(j.x, true, at, s, f);
      && PhasesOk(light, d, turn.state, phases) && OnCourse(j.x, turn.pc)
      && (forall n :: n in phases && n != j.v.name && Minded(light, phases[n].j.v) ==>
        See(phases[n].j.v, turn.state) == See(phases[n].j.v, s))
  {
    var name, i := j.v.name, phases[j.v.name].j;
    var s' := DelStep(j.x, true, at, s, f).state;
    assert phases[name] == Dying(i) && VolumeOk(light, d, s, phases[name]) && i.x == j.x;
    DeleteOwn(light, d, i, at, s, f);
    forall n | n in phases && n != name
      ensures VolumeOk(light, d, s', phases[n]) && FilesetAt(s', Key(phases[n].j.v)) == FilesetAt(s, Key(phases[n].j.v))
      ensures Minded(light, phases[n].j.v) ==> See(phases[n].j.v, s') == See(phases[n].j.v, s)
      ensures Spared(light, s', phases[n], phases[name]) && Spared(light, s', phases[name], phases[n])
    {
      DeleteSpares(light, d, i, at, s, f, phases[n]);
      DeleteSparesPair(light, d, i, at, s, f, phases[n]);
    }
    forall m, n | m in phases && n in phases && m != n ensures Spared(light, s', phases[m], phases[n]) {
      if m != name && n != name {
        OthersSpared(light, s, s', phases[m], phases[n]);
      }
    }
  }

  // ---------- threads ----------

  lemma OfThread(light: bool, s: State, phases: map<string, Phase>, threads: map<nat, Thread>, t: nat)
    requires ThreadsOk(light, s, phases, threads) && t in threads
    ensures ThreadOk(light, s, phases, threads[t])
  {
  }

  /** Threads other than the moving one still know what they knew: it was about other names, or before admission. */
  lemma OthersStay(light: bool, d: Driver, s: State, s': State, phases: map<string, Phase>, threads: map<nat, Thread>,
      t: nat, u: nat)
    requires ThreadsOk(light, s, phases, threads) && DeletesAlone(threads) && Reqmap.OneHolder(threads)
    requires t in threads && u in threads && u != t && (HoldsEntry(threads[t]) || threads[t].Deleting?)
    requires forall n :: n in phases && n != threads[t].j.v.name && Minded(light, phases[n].j.v) ==>
      See(phases[n].j.v, s') == See(phases[n].j.v, s)
    ensures ThreadOk(light, s', phases, threads[u])
  {
    var th := threads[u];
    OfThread(light, s, phases, threads, u);
    var w := phases[th.j.v.name].j.v;
    SizeUnseen(w, th.j.v, s);
    SizeUnseen(w, th.j.v, s');
  }

  /** Becoming live with an alike job does not trouble the threads of that name: none of them is a delete. */
  lemma LivePhase(light: bool, s: State, phases: map<string, Phase>, th: Thread, j: Job)
    requires ThreadOk(light, s, phases, th) && j.v.name in phases && AlikeJobs(phases[j.v.name].j, j)
    requires !phases[j.v.name].Dying?
    requires j.v.size == j.q.size
    ensures ThreadOk(light, s, phases[j.v.name := Live(j)], th)
  {
    if th.j.v.name == j.v.name {
      var i := phases[j.v.name].j;
      assert AlikeJobs(i, th.j) && AlikeJobs(i, j);
      assert th.j.v == j.v.(size := th.j.q.size);
      assert th.j.q == j.q.(size := th.j.q.size);
    }
  }

  // ---------- every event keeps the invariant ----------

  lemma Assemble(light: bool, d: Driver, y: Fleet)
    requires PhasesOk(light, d, y.s, y.phases) && ThreadsOk(light, y.s, y.phases, y.threads) && DeletesAlone(y.threads)
    requires Reqmap.MapOk(y)
    ensures Inv(light, d, y)
  {
  }

  /**
    A phase that is new, or has changed without changing its job or becoming a dying one, suits the threads there are.
  */
  lemma ThreadsStay(light: bool, s: State, phases: map<string, Phase>, phases': map<string, Phase>, threads: map<nat,
      Thread>)
    requires ThreadsOk(light, s, phases, threads)
    requires forall u :: u in threads ==> var n := threads[u].j.v.name;
      n in phases ==> n in phases' && phases'[n].j == phases[n].j && (phases'[n].Dying? <==> phases[n].Dying?)
    ensures ThreadsOk(light, s, phases', threads)
  {
    forall u | u in threads ensures ThreadOk(light, s, phases', threads[u]) {
      OfThread(light, s, phases, threads, u);
    }
  }

  lemma AddThread(light: bool, s: State, phases: map<string, Phase>, threads: map<nat, Thread>, t: nat, th: Thread)
    requires ThreadsOk(light, s, phases, threads) && ThreadOk(light, s, phases, th)
    ensures ThreadsOk(light, s, phases, threads[t := th])
  {
  }

  /** A new thread shares its name only with creates, and then is one, or is alone. */
  lemma AddAlone(threads: map<nat, Thread>, t: nat, th: Thread)
    requires DeletesAlone(threads)
    requires forall u :: u in threads && threads[u].j.v.name == th.j.v.name ==> threads[u].Creating? && th.Creating?
    ensures DeletesAlone(threads[t := th])
  {
  }

  /** While its phase is not dying, only creates run for a name. */
  lemma OnlyCreates(light: bool, s: State, phases: map<string, Phase>, threads: map<nat, Thread>, name: string)
    requires ThreadsOk(light, s, phases, threads) && (name in phases ==> !phases[name].Dying?)
    ensures forall u :: u in threads && threads[u].j.v.name == name ==> threads[u].Creating?
  {
    forall u | u in threads && threads[u].j.v.name == name ensures threads[u].Creating? {
      OfThread(light, s, phases, threads, u);
    }
  }

  /** A create for a name in use. */
  lemma JoinInv(light: bool, d: Driver, x: Fleet, t: nat, j: Job, y: Fleet)
    requires Inv(light, d, x) && j.v.name in x.phases && AlikeJobs(x.phases[j.v.name].j, j)
    requires !x.phases[j.v.name].Dying?
    requires y == x.(threads := x.threads[t := Creating(j, CheckPrimary)]) && t !in x.threads && Reqmap.MapOk(y)
    ensures Inv(light, d, y)
  {
    var th := Creating(j, CheckPrimary);
    AddThread(light, x.s, x.phases, x.threads, t, th);
    OnlyCreates(light, x.s, x.phases, x.threads, j.v.name);
    AddAlone(x.threads, t, th);
    Assemble(light, d, y);
  }

  /** The thread of a create that has just been sent. */
  lemma FirstThread(light: bool, d: Driver, s: State, phases: map<string, Phase>, j: Job)
    requires JobOk(d, j)
    ensures ThreadOk(light, s, phases[j.v.name := Building(j)], Creating(j, CheckPrimary))
  {
    AlikeItself(j);
  }

  lemma FirstThreads(light: bool, d: Driver, s: State, phases: map<string, Phase>, phases': map<string, Phase>,
                     threads: map<nat, Thread>, t: nat, j: Job)
    requires PhasesOk(light, d, s, phases) && ThreadsOk(light, s, phases, threads) && JobOk(d, j)
    requires j.v.name !in phases && FirstUse(light, d, s, phases, j) && phases' == phases[j.v.name := Building(j)]
    ensures PhasesOk(light, d, s, phases') && ThreadsOk(light, s, phases', threads[t := Creating(j, CheckPrimary)])
  {
    FirstThread(light, d, s, phases, j);
    ThreadsStay(light, s, phases, phases', threads);
    AddThread(light, s, phases', threads, t, Creating(j, CheckPrimary));
    FirstUsePhases(light, d, s, phases, j, phases');
  }

  /** The first create for a name. */
  lemma FirstInv(light: bool, d: Driver, x: Fleet, t: nat, j: Job, y: Fleet)
    requires Inv(light, d, x) && j.v.name !in x.phases && FirstUse(light, d, x.s, x.phases, j) && JobOk(d, j)
    requires y == x.(threads := x.threads[t := Creating(j, CheckPrimary)], phases := x.phases[j.v.name := Building(j)])
    requires t !in x.threads && Reqmap.MapOk(y)
    ensures Inv(light, d, y)
  {
    FirstThreads(light, d, x.s, x.phases, y.phases, x.threads, t, j);
    OnlyCreates(light, x.s, x.phases, x.threads, j.v.name);
    AddAlone(x.threads, t, Creating(j, CheckPrimary));
    Assemble(light, d, y);
  }

  lemma StartCreateInv(light: bool, d: Driver, x: Fleet, t: nat, q: Request, j: Job, y: Fleet)
    requires Inv(light, d, x) && Genuine(d, x) && IsGenuine(d, j) && j.q == q && t !in x.threads
    requires if q.name in x.phases then Alike(x.phases[q.name].j.q, q) && !x.phases[q.name].Dying?
      else FirstUse(light, d, x.s, x.phases, j)
    requires y == x.(threads := x.threads[t := Creating(j, CheckPrimary)],
                     phases := if q.name in x.phases then x.phases else x.phases[q.name := Building(j)])
    requires Reqmap.MapOk(y)
    ensures Inv(light, d, y)
  {
    GenuineIsOk(d, j);
    if q.name in x.phases {
      GenuineAlike(d, x.phases[q.name].j, j);
      JoinInv(light, d, x, t, j, y);
    } else {
      FirstInv(light, d, x, t, j, y);
    }
  }

  /** The thread of a delete that has just been sent. */
  lemma DyingThread(light: bool, d: Driver, s: State, phases: map<string, Phase>, name: string, j: Job)
    requires name in phases && j == phases[name].j && j.v.name == name && JobOk(d, j)
    ensures ThreadOk(light, s, phases[name := Dying(j)], Deleting(j, FindFsName))
  {
    AlikeItself(j);
  }

  lemma DyingThreads(light: bool, d: Driver, s: State, phases: map<string, Phase>, phases': map<string, Phase>,
                     threads: map<nat, Thread>, t: nat, name: string)
    requires PhasesOk(light, d, s, phases) && ThreadsOk(light, s, phases, threads)
    requires name in phases && phases' == phases[name := Dying(phases[name].j)]
    requires forall u :: u in threads ==> threads[u].j.v.name != name
    ensures PhasesOk(light, d, s, phases')
    ensures ThreadsOk(light, s, phases', threads[t := Deleting(phases[name].j, FindFsName)])
  {
    var j := phases[name].j;
    assert VolumeOk(light, d, s, phases[name]);
    DyingThread(light, d, s, phases, name, j);
    ThreadsStay(light, s, phases, phases', threads);
    AddThread(light, s, phases', threads, t, Deleting(j, FindFsName));
    DyingPhases(light, d, s, phases, name, phases');
  }

  lemma StartDeleteInv(light: bool, d: Driver, x: Fleet, t: nat, name: string, j: Job, y: Fleet)
    requires Inv(light, d, x) && t !in x.threads && name in x.phases && j == x.phases[name].j && j.v.name == name
    requires forall u :: u in x.threads ==> x.threads[u].j.v.name != name
    requires y == x.(threads := x.threads[t := Deleting(j, FindFsName)], phases := x.phases[name := Dying(j)])
    requires Reqmap.MapOk(y)
    ensures Inv(light, d, y)
  {
    DyingThreads(light, d, x.s, x.phases, y.phases, x.threads, t, name);
    AddAlone(x.threads, t, Deleting(j, FindFsName));
    Assemble(light, d, y);
  }

  lemma MovedThreads(light: bool, s': State, phases': map<string, Phase>, threads: map<nat, Thread>, threads': map<nat,
      Thread>, t: nat)
    requires forall u :: u in threads' && u != t ==> u in threads && threads'[u] == threads[u]
    requires forall u :: u in threads && u != t ==> ThreadOk(light, s', phases', threads[u])
    requires t in threads' ==> ThreadOk(light, s', phases', threads'[t])
    ensures ThreadsOk(light, s', phases', threads')
  {
  }

  lemma MovedAlone(threads: map<nat, Thread>, threads': map<nat, Thread>, t: nat)
    requires t in threads && DeletesAlone(threads)
    requires forall u :: u in threads' && u != t ==> u in threads && threads'[u] == threads[u]
    requires t in threads' ==> threads'[t].j == threads[t].j && (threads'[t].Creating? <==> threads[t].Creating?)
    ensures DeletesAlone(threads')
  {
  }

  /** A thread steps on, or ends, and the others are in order. */
  lemma MovedInv(light: bool, d: Driver, x: Fleet, y: Fleet, t: nat)
    requires t in x.threads && DeletesAlone(x.threads) && Reqmap.MapOk(y) && PhasesOk(light, d, y.s, y.phases)
    requires y.threads == x.threads - {t} || (t in y.threads && y.threads == x.threads[t := y.threads[t]] &&
      ThreadOk(light, y.s, y.phases, y.threads[t]) && y.threads[t].j == x.threads[t].j &&
        y.threads[t].Creating? == x.threads[t].Creating?)
    requires forall u :: u in x.threads && u != t ==> ThreadOk(light, y.s, y.phases, x.threads[u])
    ensures Inv(light, d, y)
  {
    MovedThreads(light, y.s, y.phases, x.threads, y.threads, t);
    MovedAlone(x.threads, y.threads, t);
    Assemble(light, d, y);
  }

  lemma BodyOthers(light: bool, d: Driver, x: Fleet, t: nat, j: Job, pc: Pc, f: Fault)
    requires Inv(light, d, x) && t in x.threads && x.threads[t] == Creating(j, pc) && Admitted(pc)
    ensures j.v.name in x.phases && AlikeJobs(x.phases[j.v.name].j, j) && !x.phases[j.v.name].Dying?
    ensures Fit(light, j.v, pc, x.s)
    ensures var s' := BodyStep(j.v, pc, x.s, f).state;
      forall u :: u in x.threads && u != t ==> ThreadOk(light, s', x.phases, x.threads[u])
  {
    OfThread(light, x.s, x.phases, x.threads, t);
    BodyPhases(light, d, x.s, x.phases, j, pc, f);
    var s' := BodyStep(j.v, pc, x.s, f).state;
    forall u | u in x.threads && u != t ensures ThreadOk(light, s', x.phases, x.threads[u]) {
      OthersStay(light, d, x.s, s', x.phases, x.threads, t, u);
    }
  }

  /** Success: the phase becomes live, and the other threads do not mind. */
  lemma BecomesLive(light: bool, d: Driver, x: Fleet, t: nat, j: Job, s': State, phases: map<string, Phase>)
    requires PhasesOk(light, d, s', x.phases) && VolumeOk(light, d, s', Live(j))
    requires phases == x.phases[j.v.name := Live(j)]
    requires j.v.name in x.phases && AlikeJobs(x.phases[j.v.name].j, j) && !x.phases[j.v.name].Dying?
    requires forall u :: u in x.threads && u != t ==> ThreadOk(light, s', x.phases, x.threads[u])
    ensures PhasesOk(light, d, s', phases)
    ensures forall u :: u in x.threads && u != t ==> ThreadOk(light, s', phases, x.threads[u])
  {
    ReplacePhase(light, d, s', x.phases, j.v.name, Live(j), phases);
    forall u | u in x.threads && u != t ensures ThreadOk(light, s', phases, x.threads[u]) {
      LivePhase(light, s', x.phases, x.threads[u], j);
    }
  }

  lemma MoveBodyInv(light: bool, d: Driver, x: Fleet, t: nat, j: Job, pc: Pc, f: Fault, y: Fleet)
    requires Inv(light, d, x) && t in x.threads && x.threads[t] == Creating(j, pc) && Admitted(pc)
    requires y == MoveBody(x, t, j, pc, f) && Reqmap.MapOk(y)
    ensures Inv(light, d, y)
  {
    var turn := BodyStep(j.v, pc, x.s, f);
    BodyOthers(light, d, x, t, j, pc, f);
    BodyPhases(light, d, x.s, x.phases, j, pc, f);
    if turn.pc.Done? {
      if turn.pc.outcome.Created? {
        BecomesLive(light, d, x, t, j, turn.state, y.phases);
      }
    } else {
      assert ThreadOk(light, turn.state, y.phases, Creating(j, turn.pc));
    }
    MovedInv(light, d, x, y, t);
  }

  lemma MoveFrontInv(light: bool, d: Driver, x: Fleet, t: nat, j: Job, pc: Pc, f: Fault, y: Fleet)
    requires Inv(light, d, x) && t in x.threads && x.threads[t] == Creating(j, pc) && BeforeAdmission(pc)
    requires y == MoveFront(d, x, t, j, pc, f) && Reqmap.MapOk(y)
    ensures Inv(light, d, y)
  {
    OfThread(light, x.s, x.phases, x.threads, t);
    assert y.s == x.s && y.phases == x.phases;
    if y.threads != x.threads - {t} {
      FrontThread(light, x.s, x.phases, x.threads[t], y.threads[t]);
    }
    MovedInv(light, d, x, y, t);
  }

  /** A create that goes on before admission, or is just admitted, knows what it must. */
  lemma FrontThread(light: bool, s: State, phases: map<string, Phase>, th: Thread, next: Thread)
    requires ThreadOk(light, s, phases, th) && th.Creating? && next.Creating? && next.j == th.j
    requires BeforeAdmission(next.pc) || next.pc == BodyStart(th.j.v)
    ensures ThreadOk(light, s, phases, next)
  {
  }

  lemma DeleteOthers(light: bool, d: Driver, x: Fleet, t: nat, j: Job, at: DelPc, f: Fault)
    requires Inv(light, d, x) && t in x.threads && x.threads[t] == Deleting(j, at) && !Over(at)
    ensures OnCourse(j.x, at) && j.v.name in x.phases && x.phases[j.v.name].Dying? && AlikeJobs(x.phases[j.v.name].j, j)
    ensures var s' := DelStep(j.x, true, at, x.s, f).state;
      forall u :: u in x.threads && u != t ==>
        ThreadOk(light, s', x.phases, x.threads[u]) && x.threads[u].j.v.name != j.v.name
  {
    OfThread(light, x.s, x.phases, x.threads, t);
    DeletePhases(light, d, x.s, x.phases, j, at, f);
    var s' := DelStep(j.x, true, at, x.s, f).state;
    forall u | u in x.threads && u != t
      ensures ThreadOk(light, s', x.phases, x.threads[u]) && x.threads[u].j.v.name != j.v.name
    {
      OthersStay(light, d, x.s, s', x.phases, x.threads, t, u);
    }
  }

  /** Once a name is given up, no thread of it is left. */
  lemma NameGone(light: bool, d: Driver, s': State, phases: map<string, Phase>, threads: map<nat, Thread>, t: nat,
      name: string)
    requires PhasesOk(light, d, s', phases)
    requires forall u :: u in threads && u != t ==>
      ThreadOk(light, s', phases, threads[u]) && threads[u].j.v.name != name
    ensures PhasesOk(light, d, s', phases - {name})
    ensures forall u :: u in threads && u != t ==> ThreadOk(light, s', phases - {name}, threads[u])
  {
  }

  /** A delete goes on, ends, or ends with its name given up. */
  lemma DeleteMoved(light: bool, d: Driver, x: Fleet, t: nat, j: Job, turn: DelTurn, y: Fleet)
    requires t in x.threads && x.threads[t].Deleting? && x.threads[t].j == j && DeletesAlone(x.threads)
    requires Reqmap.MapOk(y)
    requires PhasesOk(light, d, turn.state, x.phases) && OnCourse(j.x, turn.pc)
    requires j.v.name in x.phases && x.phases[j.v.name].Dying? && AlikeJobs(x.phases[j.v.name].j, j)
    requires forall u :: u in x.threads && u != t ==>
      ThreadOk(light, turn.state, x.phases, x.threads[u]) && x.threads[u].j.v.name != j.v.name
    requires y.s == turn.state && y.phases == if turn.pc.Deleted? then x.phases - {j.v.name} else x.phases
    requires y.threads == if Over(turn.pc) then x.threads - {t} else x.threads[t := Deleting(j, turn.pc)]
    ensures Inv(light, d, y)
  {
    if turn.pc.Deleted? {
      NameGone(light, d, y.s, x.phases, x.threads, t, j.v.name);
    } else if !Over(turn.pc) {
      assert ThreadOk(light, y.s, y.phases, Deleting(j, turn.pc));
    }
    MovedInv(light, d, x, y, t);
  }

  lemma MoveDeleteInv(light: bool, d: Driver, x: Fleet, t: nat, j: Job, at: DelPc, f: Fault, y: Fleet)
    requires Inv(light, d, x) && t in x.threads && x.threads[t] == Deleting(j, at) && !Over(at)
    requires y == MoveDelete(x, t, j, at, f) && Reqmap.MapOk(y)
    ensures Inv(light, d, y)
  {
    DeleteOthers(light, d, x, t, j, at, f);
    DeletePhases(light, d, x.s, x.phases, j, at, f);
    DeleteMoved(light, d, x, t, j, DelStep(j.x, true, at, x.s, f), y);
  }

  lemma MoveInv(light: bool, d: Driver, x: Fleet, t: nat, f: Fault, y: Fleet)
    requires Inv(light, d, x) && t in x.threads && y == Moved(d, x, t, f) && Reqmap.MapOk(y)
    ensures Inv(light, d, y)
  {
    OfThread(light, x.s, x.phases, x.threads, t);
    match x.threads[t] {
      case Creating(j, pc) =>
        if Admitted(pc) {
          assert y == MoveBody(x, t, j, pc, f);
          MoveBodyInv(light, d, x, t, j, pc, f, y);
        } else {
          assert y == MoveFront(d, x, t, j, pc, f);
          MoveFrontInv(light, d, x, t, j, pc, f, y);
        }
      case Deleting(j, at) =>
        assert y == MoveDelete(x, t, j, at, f);
        MoveDeleteInv(light, d, x, t, j, at, f, y);
    }
  }

  /** Jobs are those of admissible requests. */
  ghost predicate Genuine(d: Driver, x: Fleet) {
    && (forall n :: n in x.phases ==> IsGenuine(d, x.phases[n].j))
    && (forall t :: t in x.threads ==> IsGenuine(d, x.threads[t].j))
  }

  /** A move touches at most its own thread and its own name's phase, without changing jobs. */
  lemma MovedJobs(d: Driver, x: Fleet, t: nat, f: Fault, y: Fleet)
    requires t in x.threads && Running(x.threads[t]) && y == Moved(d, x, t, f)
    ensures var j := x.threads[t].j;
      y.phases == x.phases || y.phases == x.phases[j.v.name := Live(j)] || y.phases == x.phases - {j.v.name}
    ensures forall u :: u in y.threads ==> u in x.threads && y.threads[u].j == x.threads[u].j
  {
  }

  lemma MovedGenuine(d: Driver, x: Fleet, t: nat, y: Fleet)
    requires Genuine(d, x) && t in x.threads
    requires var j := x.threads[t].j;
      y.phases == x.phases || y.phases == x.phases[j.v.name := Live(j)] || y.phases == x.phases - {j.v.name}
    requires forall u :: u in y.threads ==> u in x.threads && y.threads[u].j == x.threads[u].j
    ensures Genuine(d, y)
  {
  }

  lemma StartedGenuine(d: Driver, x: Fleet, t: nat, th: Thread, name: string, p: Phase, y: Fleet)
    requires Genuine(d, x) && IsGenuine(d, th.j) && IsGenuine(d, p.j)
    requires y.threads == x.threads[t := th] && (y.phases == x.phases || y.phases == x.phases[name := p])
    ensures Genuine(d, y)
  {
  }

  lemma StepGenuine(light: bool, d: Driver, x: Fleet, e: Event, y: Fleet)
    requires Reqmap.MapOk(x) && Enabled(light, d, x, e) && Genuine(d, x) && y == Apply(d, x, e)
    ensures Genuine(d, y)
  {
    match e {
      case StartCreate(t, q) =>
        var j := JobOf(d, q);
        StartedGenuine(d, x, t, Creating(j, CheckPrimary), q.name, Building(j), y);
      case StartDelete(t, name) =>
        var j := x.phases[name].j;
        StartedGenuine(d, x, t, Deleting(j, FindFsName), name, Dying(j), y);
      case Move(t, f) =>
        assert Reqmap.Proper(x.threads[t]);
        MovedJobs(d, x, t, f, y);
        MovedGenuine(d, x, t, y);
    }
  }

  lemma StartInv(light: bool, d: Driver, x: Fleet, e: Event, y: Fleet)
    requires Inv(light, d, x) && Genuine(d, x) && !e.Move? && Enabled(light, d, x, e) && y == Apply(d, x, e)
    requires Reqmap.MapOk(y)
    ensures Inv(light, d, y)
  {
    match e {
      case StartCreate(t, q) => StartCreateInv(light, d, x, t, q, JobOf(d, q), y);
      case StartDelete(t, name) => StartDeleteInv(light, d, x, t, name, x.phases[name].j, y);
    }
  }

  /** Every event keeps the invariant. */
  lemma StepInv(light: bool, d: Driver, x: Fleet, e: Event, y: Fleet)
    requires Inv(light, d, x) && Genuine(d, x) && Enabled(light, d, x, e) && y == Apply(d, x, e)
    ensures Inv(light, d, y) && Genuine(d, y)
  {
    StepGenuine(light, d, x, e, y);
    Reqmap.StepKeepsMap(d, x, e, y);
    if e.Move? {
      MoveInv(light, d, x, e.t, e.f, y);
    } else {
      StartInv(light, d, x, e, y);
    }
  }

  lemma {:induction false} RunInv(light: bool, d: Driver, x: Fleet, events: seq<Event>)
    requires Initial(x) && Possible(light, d, x, events)
    ensures Inv(light, d, Run(d, x, events)) && Genuine(d, Run(d, x, events))
    decreases |events|
  {
    if events != [] {
      RunInv(light, d, x, events[..|events| - 1]);
      StepInv(light, d, Run(d, x, events[..|events| - 1]), events[|events| - 1], Run(d, x, events));
    }
  }

  // ---------- what every run guarantees ----------

  /**
   The volume is all there, as far as the driver can see: its fileset is linked with a limit that holds its size,
   something is at its data path, and its link leads to exactly that place.
   */
  predicate Intact(v: Volume, s: State) {
    var fileset := FilesetAt(s, Key(v));
    && (v.isFileset ==> fileset.Some? && Linked(fileset.value.link) && QuotaHolds(v, fileset.value.limitKiB))
    && var data := DataLoc(v, DataDir(v, if v.isFileset then fileset.value.link else ""));
       Present(s, data) && v.slnk in s.symlinks && s.symlinks[v.slnk] == data
  }

  lemma LiveIsIntact(light: bool, d: Driver, s: State, p: Phase)
    requires VolumeOk(light, d, s, p) && p.Live? && Minded(light, p.j.v)
    ensures Intact(p.j.v, s)
  {
    assert Missing(p.j.v, See(p.j.v, s)) == 0;
  }

  /**
   Safety over all runs: whatever creates and deletes interleave and whichever of their calls are lost or answered
   late, a fileset volume whose create has succeeded, and for which no delete has been sent, is intact. Of several
   creates that differ in size, the last one that succeeded counts. The same holds of lightweight volumes if they are
   looked after.
   */
  lemma LiveVolumesStayIntact(light: bool, d: Driver, x: Fleet, events: seq<Event>, name: string)
    requires Initial(x) && Possible(light, d, x, events)
    requires var y := Run(d, x, events);
      name in y.phases && y.phases[name].Live? && (y.phases[name].j.q.isFileset || light)
    ensures var y := Run(d, x, events); y.phases[name].j.q.name == name && Intact(Resolve(d, y.phases[name].j.q), y.s)
  {
    var y := Run(d, x, events);
    RunInv(light, d, x, events);
    assert IsGenuine(d, y.phases[name].j);
    assert VolumeOk(light, d, y.s, y.phases[name]);
    LiveIsIntact(light, d, y.s, y.phases[name]);
  }

  /** The name of the volume an event is about. */
  function About(x: Fleet, e: Event): string {
    match e
    case StartCreate(_, q) => q.name
    case StartDelete(_, name) => name
    case Move(t, _) => if t in x.threads then x.threads[t].j.v.name else ""
  }

  /** Non-interference: after any run, an event about one name changes nothing that a volume of another shows. */
  lemma EventsSpareOthers(light: bool, d: Driver, x: Fleet, events: seq<Event>, e: Event, name: string)
    requires Initial(x) && Possible(light, d, x, events) && Enabled(light, d, Run(d, x, events), e)
    requires var y := Run(d, x, events);
      name in y.phases && name != About(y, e) && (y.phases[name].j.q.isFileset || light)
    ensures var y := Run(d, x, events); var v := Resolve(d, y.phases[name].j.q);
      See(v, Apply(d, y, e).s) == See(v, y.s)
  {
    var y := Run(d, x, events);
    RunInv(light, d, x, events);
    assert IsGenuine(d, y.phases[name].j);
    if e.Move? {
      MoveSpares(light, d, y, e.t, e.f, name, Moved(d, y, e.t, e.f));
    }
  }

  lemma MoveSpares(light: bool, d: Driver, x: Fleet, t: nat, f: Fault, name: string, y: Fleet)
    requires Inv(light, d, x) && t in x.threads && y == Moved(d, x, t, f)
    requires name in x.phases && name != x.threads[t].j.v.name && Minded(light, x.phases[name].j.v)
    ensures See(x.phases[name].j.v, y.s) == See(x.phases[name].j.v, x.s)
  {
    OfThread(light, x.s, x.phases, x.threads, t);
    assert Reqmap.Proper(x.threads[t]);
    MovedState(d, x, t, f, y);
    match x.threads[t] {
      case Creating(j, pc) =>
        if Admitted(pc) {
          BodyPhases(light, d, x.s, x.phases, j, pc, f);
        }
      case Deleting(j, at) =>
        DeletePhases(light, d, x.s, x.phases, j, at, f);
    }
  }

  /** A move touches the backend by one step of its thread. */
  lemma MovedState(d: Driver, x: Fleet, t: nat, f: Fault, y: Fleet)
    requires t in x.threads && Running(x.threads[t]) && y == Moved(d, x, t, f)
    ensures match x.threads[t]
      case Creating(j, pc) => y.s == if Admitted(pc) then BodyStep(j.v, pc, x.s, f).state else x.s
      case Deleting(j, at) => y.s == DelStep(j.x, true, at, x.s, f).state
  {
  }

  // ---------- the target of a link that is already there ----------

  /** Whether something is at the link's path when create comes to make the link. */
  predicate LinkPathTaken(v: Volume, s: State) {
    Present(s, v.slnk) || v.slnk == Place(v, s) || (v.isFileset && !LinkedNow(v, s) && v.slnk == Root(v, s))
  }

  lemma CompletedLink(v: Volume, s: State, s': State)
    requires s' == Complete(v, s)
    ensures LinkPathTaken(v, s) ==> s'.symlinks == s.symlinks
    ensures !LinkPathTaken(v, s) ==> s'.symlinks == s.symlinks[v.slnk := LinkTo(v, Goal(v, s))]
  {
    var m := MakeDirectory(WithFileset(v, s), Place(v, s));
    assert s' == CreateSymLink(m, v.slnk, LinkTo(v, Goal(v, s)));
    assert Present(m, v.slnk) <==> LinkPathTaken(v, s);
  }

  /**
   Create does not compare the target of a link that is already there, nor who owns the filesystem: after a success the
   link leads to the data directory exactly when one that does so was at its path before, or when nothing was there,
   what create makes is not there either, and the cluster id names the owner.
   */
  lemma LinkIsRightExactly(d: Driver, q: Request, s: State, faults: seq<Fault>)
    requires CreateVolume(d, q, s, faults).outcome.Created?
    ensures var v, s' := Resolve(d, q), CreateVolume(d, q, s, faults).state;
      (v.slnk in s'.symlinks && s'.symlinks[v.slnk] == Place(v, s)) <==>
      if LinkPathTaken(v, s) then v.slnk in s.symlinks && s.symlinks[v.slnk] == Place(v, s)
      else v.localDevice == v.info.device
  {
    AttemptAdvances(d, q, s, faults);
    CompletedLink(Resolve(d, q), s, CreateVolume(d, q, s, faults).state);
  }
}
