/** DeleteVolume on the identifier that CreateVolume returned takes everything back. */
module Undo {
  import opened Strings
  import opened Paths
  import opened Backend
  import opened Create
  import opened Progress
  import opened Converge
  import opened Delete
  import opened VolumeId

  // ---------- the identifier leads back to the volume ----------

  /** The primary fileset is linked below the primary mount point at a path that survives trimming. */
  predicate GoodPrimaryLink(d: Driver) {
    d.primaryMount <= d.primaryLink && GoodLink(d.primaryLink[|d.primaryMount|..])
  }

  /** A volume name is an ordinary file name that survives trimming at both ends. */
  predicate PlainName(name: string) {
    Component(name) && Trim(name) == name
  }

  predicate GoodIds(d: Driver, q: Request) {
    && PlainName(q.name)
    && GoodPrimaryLink(d)
    && Separable(ClusterId(d, q), Info(d, d.primaryCid, q.backendFs).uuid, q.name,
      SymlinkAbs(d.primaryLink) + "/" + q.name, q.isFileset)
    // the UUID names one filesystem of the primary cluster, and the primary's own id has a connector
    && Info(d, d.primaryCid, q.backendFs).uuid in d.uuidName
    && d.uuidName[Info(d, d.primaryCid, q.backendFs).uuid] == q.backendFs
    && d.primaryCid in d.connmap && d.connmap[d.primaryCid] == d.primaryCid
  }

  lemma SlnkPathKept(d: Driver, name: string)
    requires GoodPrimaryLink(d) && PlainName(name)
    ensures RelPath(SymlinkAbs(d.primaryLink) + "/" + name, d.primaryMount) == SlnkRelPath(d, name)
    ensures Base(SlnkRelPath(d, name)) == name
  {
    var r := d.primaryLink[|d.primaryMount|..];
    assert d.primaryLink == d.primaryMount + r;
    TrimEnds(name);
    SymlinkPathsAgree(d.primaryMount, r, name);
    BaseOfJoined(SymlinkRel(d.primaryLink, d.primaryMount), name);
  }

  /** The identifier reaches the same cluster, filesystem, fileset and symbolic link that create used. */
  lemma IdLeadsBack(d: Driver, q: Request)
    requires GoodIds(d, q) && FrontOk(d, q)
    ensures var p, v := GetVolIdMembers(VolId(d, q)), Resolve(d, q);
      && Resolvable(d, VolId(d, q)) && p.members.isFilesetBased == q.isFileset
      && var x := DoomedBy(d, p.members);
      && x.slnk == v.slnk && Base(x.slnkRel) == q.name
      && (q.isFileset ==> x.device == v.info.device && x.fsetName == q.name)
      && x.isFilesetBased == q.isFileset
  {
    var uuid := Info(d, d.primaryCid, q.backendFs).uuid;
    ParseInvertsGenerate(ClusterId(d, q), uuid, q.name, SymlinkAbs(d.primaryLink) + "/" + q.name, q.isFileset);
    SlnkPathKept(d, q.name);
  }

  // ---------- removing what completion added ----------

  /** The tree that a new volume gets: what is below its junction, or its directory. */
  function NewTree(v: Volume): Loc {
    if v.isFileset then Loc(v.info.device, NewRoot(v)) else DataLoc(v, DataDir(v, ""))
  }

  /** The backend holds no object for the volume: no fileset, nothing where its data or its link would be. */
  predicate Fresh(v: Volume, s: State) {
    && !Present(s, v.slnk)
    && (v.isFileset ==> Key(v) !in s.filesets)
    && (forall l :: l in s.dirs ==> !Within(l, NewTree(v)))
    && (forall l :: l in s.symlinks ==> !Within(l, NewTree(v)))
  }

  /** What create resolves for a request with a plain name. */
  predicate Sound(v: Volume) {
    && WfVolume(v) && PlainName(v.name) && v.junction == v.info.mount + "/" + v.name
    && (!v.isFileset ==> v.localDevice == v.info.device)
  }

  lemma ResolvedIsSound(d: Driver, q: Request)
    requires PlainName(q.name)
    ensures Sound(Resolve(d, q))
  {
    ResolvedIsWf(d, q);
  }

  predicate Matches(x: Doomed, v: Volume) {
    && x.slnk == v.slnk && x.isFilesetBased == v.isFileset
    && (v.isFileset ==> x.device == v.info.device && x.fsetName == v.name && Base(x.slnkRel) == v.name)
  }

  /** The data directory of a freshly made volume lies in its tree. */
  lemma DataBelowRoot(v: Volume)
    requires Sound(v)
    ensures Within(DataLoc(v, DataDir(v, v.junction)), NewTree(v))
  {
    if v.isFileset {
      OwnTreeExactly(v.info.mount, v.name);
    } else {
      assert DataDir(v, v.junction) == DataDir(v, "");
    }
  }

  /** What completion adds to a fresh backend. */
  lemma CompletedFresh(v: Volume, s: State)
    requires Sound(v) && Fresh(v, s)
    ensures var s1, data := Complete(v, s), DataLoc(v, DataDir(v, v.junction));
      && (if v.isFileset then Key(v) in s1.filesets && s1.filesets[Key(v)].link == v.junction &&
                              s1.filesets[Key(v)].root == NewRoot(v) && s1.filesets - {Key(v)} == s.filesets
          else s1.filesets == s.filesets)
      && data in s1.dirs && s1.dirs == s.dirs + {data, if v.isFileset then NewTree(v) else data}
      && s1.symlinks - {v.slnk} == s.symlinks && OneObject(s1, v.slnk)
      && (!v.isFileset ==> Follow(s1, v.slnk) == data)
  {
    var t := DataDir(v, v.junction);
    FreshTree(v, s, t);
    LinkedLast(MakeDirectory(WithFileset(v, s), DataLoc(v, t)), v.slnk, LinkTo(v, t), s);
  }

  /** What it adds before the link. */
  lemma FreshTree(v: Volume, s: State, t: string)
    requires Sound(v) && Fresh(v, s) && t == DataDir(v, v.junction)
    ensures Goal(v, s) == t
    ensures var m, data := MakeDirectory(WithFileset(v, s), DataLoc(v, t)), DataLoc(v, t);
      && m.symlinks == s.symlinks && m.dirs == s.dirs + {data, if v.isFileset then NewTree(v) else data}
      && (if v.isFileset then Key(v) in m.filesets && m.filesets[Key(v)].link == v.junction &&
                              m.filesets[Key(v)].root == NewRoot(v) && m.filesets - {Key(v)} == s.filesets
          else m.filesets == s.filesets)
  {
    DataBelowRoot(v);
    assert !Present(s, DataLoc(v, t));
    if v.isFileset {
      DataIsNotRoot(v);
    } else {
      assert Goal(v, s) == DataDir(v, "") == t;
    }
  }

  /** What making the link does to a state in which no link is in its place. */
  lemma LinkedLast(m: State, l: Loc, target: Loc, s: State)
    requires m.symlinks == s.symlinks && l !in s.symlinks
    ensures var s1 := CreateSymLink(m, l, target);
      && s1.filesets == m.filesets && s1.dirs == m.dirs
      && s1.symlinks - {l} == s.symlinks && OneObject(s1, l)
      && Follow(s1, l) == if l in m.dirs then l else target
  {
  }

  /** The data of a new fileset volume goes below its junction, not to it. */
  lemma DataIsNotRoot(v: Volume)
    requires Sound(v) && v.isFileset
    ensures DataLoc(v, DataDir(v, v.junction)) != NewTree(v)
  {
    JunctionPlaces(v.info.mount, v.name);
    assert Step([], v.name) == [v.name];
  }

  /** Removing the tree of a completed volume leaves of what completion added at most the link. */
  lemma TreeGone(v: Volume, s: State)
    requires Sound(v) && Fresh(v, s)
    ensures var s2 := RemoveTree(Complete(v, s), NewTree(v)); s2.dirs == s.dirs && s2.symlinks - {v.slnk} == s.symlinks
  {
    CompletedFresh(v, s);
    DataBelowRoot(v);
    assert Within(NewTree(v), NewTree(v));
  }

  lemma EraseUndoesFileset(x: Doomed, v: Volume, s: State)
    requires Sound(v) && v.isFileset && Matches(x, v) && Fresh(v, s)
    ensures Erase(x, Complete(v, s)) == s
  {
    var k, s1 := Key(v), Complete(v, s);
    CompletedFresh(v, s);
    TreeGone(v, s);
    assert DoomedName(x, s1) == v.name;
    var s2 := DeleteFileset(s1, k);
    var s3 := RemoveTree(s1, NewTree(v));
    assert s2.dirs == s3.dirs && s2.symlinks == s3.symlinks && s2.filesets == s.filesets;
    assert Erase(x, s1) == DeleteSymLnk(s2, v.slnk);
  }

  lemma EraseUndoesLightweight(x: Doomed, v: Volume, s: State)
    requires Sound(v) && !v.isFileset && Matches(x, v) && Fresh(v, s)
    ensures Follow(Complete(v, s), x.slnk) in Complete(v, s).dirs
    ensures Erase(x, Complete(v, s)) == s
  {
    var s1 := Complete(v, s);
    CompletedFresh(v, s);
    TreeGone(v, s);
    assert DataDir(v, v.junction) == DataDir(v, "");
    assert Follow(s1, v.slnk) == NewTree(v);
    assert Erase(x, s1) == DeleteSymLnk(RemoveTree(s1, NewTree(v)), v.slnk);
  }

  /**
   Delete undoes create: on a backend without objects for the name, deleting the identifier that an undisturbed
   create returns gives back the state from before, for fileset and for lightweight volumes.
   */
  lemma DeleteUndoesCreate(d: Driver, q: Request, s: State)
    requires GoodIds(d, q) && FrontOk(d, q) && Ready(Resolve(d, q), s) && Fresh(Resolve(d, q), s)
    ensures var made := CreateVolume(d, q, s, []);
      && made.outcome.Created?
      && DeleteVolume(d, made.outcome.volumeId, made.state, []).deleted
      && DeleteVolume(d, made.outcome.volumeId, made.state, []).state == s
  {
    var v := Resolve(d, q);
    CleanAttemptSucceeds(d, q, s);
    AttemptAdvances(d, q, s, []);
    IdLeadsBack(d, q);
    ResolvedIsSound(d, q);
    var x := DoomedBy(d, GetVolIdMembers(v.id).members);
    if v.isFileset {
      EraseUndoesFileset(x, v, s);
      FilesetDeleteConverges(d, v.id, Complete(v, s), []);
    } else {
      EraseUndoesLightweight(x, v, s);
      LightweightDeleteSucceedsExactly(d, v.id, Complete(v, s));
    }
  }

  /**
   The same with faults everywhere: any failed creates, then a successful one, then any failed deletes, then an
   undisturbed delete. For a fileset volume the state from before is always restored; for a lightweight one exactly
   when the failed deletes have changed nothing, and otherwise the last delete is refused.
   */
  lemma FaultyDeleteUndoesFaultyCreate(d: Driver, q: Request, s: State, creates: seq<seq<Fault>>,
      deletes: seq<seq<Fault>>)
    requires GoodIds(d, q) && FrontOk(d, q) && Ready(Resolve(d, q), s) && Fresh(Resolve(d, q), s)
    requires Repeatable(q.isFileset, q.size)
    ensures var made := CreateVolume(d, q, Attempts(d, q, s, creates), []);
      && made.outcome.Created?
      && var left := Deletes(d, made.outcome.volumeId, made.state, deletes);
      var gone := DeleteVolume(d, made.outcome.volumeId, left, []);
      && (gone.deleted <==> q.isFileset || left == made.state)
      && (gone.deleted ==> gone.state == s)
  {
    var v := Resolve(d, q);
    RetriesConverge(d, q, s, creates);
    IdLeadsBack(d, q);
    ResolvedIsSound(d, q);
    var x := DoomedBy(d, GetVolIdMembers(v.id).members);
    if v.isFileset {
      EraseUndoesFileset(x, v, s);
      FilesetDeleteConverges(d, v.id, Complete(v, s), deletes);
    } else {
      EraseUndoesLightweight(x, v, s);
      CompletedFresh(v, s);
      assert OneObject(Complete(v, s), v.slnk);
      LightweightRetriesExactly(d, v.id, Complete(v, s), deletes);
      LightweightDeleteSucceedsExactly(d, v.id, Deletes(d, v.id, Complete(v, s), deletes));
    }
  }
}
