/** What the two requests do, in terms of requests, identifier texts and backend objects alone. */
module Outward {
  import opened Strings
  import opened Numbers
  import opened Paths
  import opened Backend
  import opened Create
  import opened Progress
  import opened Converge
  import opened Delete
  import opened Undo
  import opened VolumeId

  // ---------- where a request goes ----------

  predicate EndsIn(s: string, tail: string) {
    |tail| <= |s| && s[|s| - |tail|..] == tail
  }

  /**
   The filesystem on the cluster's own side: the primary cluster lists the requested name with the owner's name for it,
   alone or behind a cluster and a colon.
   */
  predicate Leads(d: Driver, cluster: string, fs: string, o: FsKey) {
    && FsKey(d.primaryCid, fs) in d.filesystems
    && cluster in d.connmap && o.cluster == d.connmap[cluster]
    && ':' !in o.fs
    && var remote := d.filesystems[FsKey(d.primaryCid, fs)].remoteDevice;
       remote == o.fs || EndsIn(remote, ":" + o.fs)
  }

  lemma LastPart(remote: string, fs: string)
    requires ':' !in fs && (remote == fs || EndsIn(remote, ":" + fs))
    ensures LastDevice(remote) == fs
  {
    SplitFree(fs, ':');
    if remote != fs {
      var front := remote[..|remote| - |fs| - 1];
      assert remote == front + (":" + fs);
      assert front + (":" + fs) == front + [':'] + fs;
      SplitJoined(front, fs, ':');
    }
  }

  /** A fileset volume is worked on by the named cluster, or the primary one, under that cluster's own name. */
  lemma FilesetFilesystem(d: Driver, q: Request, c: string, o: FsKey)
    requires q.isFileset && c == (if q.clusterId != "" then q.clusterId else d.primaryCid)
    requires Leads(d, c, q.backendFs, o)
    ensures var v := Resolve(d, q);
      && (v.fsKnown <==> o in d.filesystems)
      && (o in d.filesystems ==> v.info == d.filesystems[o] && v.junction == d.filesystems[o].mount + "/" + q.name)
      && (v.foreign <==> c != d.primaryCid)
      && v.localDevice == d.filesystems[FsKey(d.primaryCid, q.backendFs)].device
  {
    LastPart(d.filesystems[FsKey(d.primaryCid, q.backendFs)].remoteDevice, o.fs);
  }

  /** A lightweight one by the primary cluster, under the requested name. */
  lemma LightweightFilesystem(d: Driver, q: Request)
    requires !q.isFileset && FsKey(d.primaryCid, q.backendFs) in d.filesystems
    ensures Resolve(d, q).info == d.filesystems[FsKey(d.primaryCid, q.backendFs)]
  {
  }

  /** Delete finds the same filesystem from the identifier's cluster and UUID. */
  lemma DoomedFilesystem(d: Driver, m: Members, o: FsKey)
    requires m.fsUUID in d.uuidName && Leads(d, m.clusterId, d.uuidName[m.fsUUID], o) && o in d.filesystems
    ensures DoomedBy(d, m).device == d.filesystems[o].device
  {
    LastPart(d.filesystems[FsKey(d.primaryCid, d.uuidName[m.fsUUID])].remoteDevice, o.fs);
  }

  // ---------- why an undisturbed create fails before it starts ----------

  lemma FrontErrors(d: Driver, q: Request, s: State)
    requires FsKey(d.primaryCid, d.primaryFs) in d.filesystems && FsKey(d.primaryCid, q.backendFs) in d.filesystems
    ensures var e, fs := CreateVolume(d, q, s, []), d.filesystems[FsKey(d.primaryCid, q.backendFs)];
      var c := if q.clusterId != "" then q.clusterId else d.primaryCid;
      if !d.primaryLinked then e == Ending(Failed(PrimaryUnlinked), s, [])
      else if d.primaryFs != q.backendFs && !d.filesystems[FsKey(d.primaryCid, d.primaryFs)].mounted
      then e == Ending(Failed(PrimaryNotMounted), s, [])
      else if !fs.mounted then e == Ending(Failed(VolumeFsNotMounted), s, [])
      else if q.isFileset && q.clusterId == "" && fs.isRemote then e == Ending(Failed(ClusterIdNeeded), s, [])
      else q.isFileset && c !in d.connmap ==> e == Ending(Failed(NoConnector), s, [])
  {
    var second := FrontNext(d, q, CheckPrimary);
    assert CreateVolume(d, q, s, []) == FrontRun(d, q, second, s, []);
    if second == CheckMount {
      assert FrontRun(d, q, CheckMount, s, []) == FrontRun(d, q, FrontNext(d, q, CheckMount), s, []);
    }
    assert FrontRun(d, q, ReadVolumeFs, s, []) == FrontRun(d, q, FrontNext(d, q, ReadVolumeFs), s, []);
  }

  /** Why it fails once it has been admitted, for a fileset volume whose fileset is there and linked, or not there. */
  lemma FilesetErrors(v: Volume, s: State)
    requires v.isFileset
    ensures var outcome := BodyRun(v, BodyStart(v), s, []).outcome;
      if !v.fsKnown then outcome == Failed(CallFailed)
      else if v.info.isRemote then outcome == Failed(RemoteFilesystem)
      else if v.foreign && !v.info.mounted then outcome == Failed(OwnerFsNotMounted)
      else if v.size != 0 && !v.info.quotaOn then outcome == Failed(CallFailed)
      else v.size != 0 && LinkedNow(v, s) ==>
        var n := s.filesets[Key(v)].limitKiB * 1024 % 0x1_0000_0000_0000_0000;
        s.filesets[Key(v)].limitKiB > 0 && n != 0 && n != v.size ==> outcome == Failed(QuotaMismatch)
  {
    var next := AfterOwnerFs(v);
    assert BodyRun(v, ReadOwnerFs, s, []) == BodyRun(v, next, s, []);
    if next == CheckQuotaOn {
      assert BodyRun(v, next, s, []) == BodyRun(v, if v.info.quotaOn then FindFileset else BROKEN, s, []);
      if LinkedNow(v, s) {
        var link := s.filesets[Key(v)].link;
        assert BodyRun(v, FindFileset, s, []) == BodyRun(v, ReadQuota(link), s, []);
        QuotaLeads(v, link, s, Key(v));
        assert BodyRun(v, ReadQuota(link), s, []) == BodyRun(v, AfterQuota(v, link, ListQuota(s, Key(v))), s, []);
      }
    }
  }

  /** Without a mount point there is no target path for a linked fileset. */
  lemma NoMountPoint(v: Volume, s: State)
    requires v.isFileset && v.fsKnown && !v.info.isRemote && (v.foreign ==> v.info.mounted) && v.size == 0
    requires v.info.mount == "" && LinkedNow(v, s)
    ensures BodyRun(v, BodyStart(v), s, []) == Ending(Failed(NoTarget), s, [])
  {
    var link := s.filesets[Key(v)].link;
    assert BodyRun(v, ReadOwnerFs, s, []) == BodyRun(v, FindFileset, s, []);
    assert BodyRun(v, FindFileset, s, []) == BodyRun(v, AtTarget(v, link), s, []);
  }

  /** A limit of 2^64 or more is an error, while one without digits counts as unset. */
  lemma LimitTexts(v: Volume, link: string, digits: string, rest: string)
    requires AllDigits(digits) && (rest != "" ==> !('0' <= rest[0] <= '9'))
    ensures digits == "" ==> AfterQuota(v, link, digits + rest) == WriteQuota(link)
    ensures digits != "" && Decimal(digits) >= 0x1_0000_0000_0000_0000 ==>
      AfterQuota(v, link, digits + rest) == Done(Failed(QuotaUnreadable))
  {
    ParseSizeMeaning(digits, rest);
  }

  lemma NoBaseDirectory(v: Volume, s: State)
    requires !v.isFileset && !Present(s, LocOf(v.info.device, v.dirBase))
    ensures BodyRun(v, BodyStart(v), s, []) == Ending(Failed(NoDirBase), s, [])
  {
    assert BodyRun(v, FindBase, s, []) == BodyRun(v, Done(Failed(NoDirBase)), s, []);
  }

  // ---------- no call that went wrong is passed over ----------

  /** Of a script n entries were used, and one that is not Clean was the last and made the whole attempt fail. */
  ghost predicate Used(faults: seq<Fault>, n: nat, rest: seq<Fault>, failed: bool) {
    && n <= |faults| && rest == faults[n..]
    && forall i :: 0 <= i < n && faults[i] != Clean ==> i == n - 1 && failed
  }

  /** One entry more in front; if it is not Clean, nothing came after it. */
  lemma UsedMore(faults: seq<Fault>, n: nat, rest: seq<Fault>, failed: bool)
    requires Used(Tail(faults), n, rest, failed) && (Head(faults) != Clean ==> n == 0 && failed)
    ensures Used(faults, if faults == [] then n else n + 1, rest, failed)
  {
    if faults != [] {
      var more := faults[1..];
      assert more[n..] == faults[n + 1..];
      forall i | 0 <= i < n + 1 && faults[i] != Clean ensures i == n && failed {
        assert i > 0 ==> faults[i] == more[i - 1];
      }
    }
  }

  lemma StepTrouble(v: Volume, pc: Pc, s: State, f: Fault)
    requires Admitted(pc) && f != Clean
    ensures BodyStep(v, pc, s, f).pc == Done(Failed(CallFailed))
  {
  }

  lemma {:induction false} BodyTrouble(v: Volume, pc: Pc, s: State, faults: seq<Fault>) returns (n: nat)
    requires Admitted(pc) || pc.Done?
    ensures var e := BodyRun(v, pc, s, faults); Used(faults, n, e.faults, e.outcome == Failed(CallFailed))
    ensures pc.Done? ==> n == 0
    decreases Rank(pc)
  {
    n := 0;
    if !pc.Done? {
      var turn := BodyStep(v, pc, s, Head(faults));
      if Head(faults) != Clean {
        StepTrouble(v, pc, s, Head(faults));
      }
      n := BodyTrouble(v, turn.pc, turn.state, Tail(faults));
      var e := BodyRun(v, turn.pc, turn.state, Tail(faults));
      UsedMore(faults, n, e.faults, e.outcome == Failed(CallFailed));
      n := if faults == [] then n else n + 1;
    }
  }

  lemma {:induction false} FrontTrouble(d: Driver, q: Request, pc: Pc, s: State, faults: seq<Fault>) returns (n: nat)
    requires BeforeAdmission(pc) || pc.Done?
    ensures var e := FrontRun(d, q, pc, s, faults); Used(faults, n, e.faults, e.outcome == Failed(CallFailed))
    ensures pc.Done? ==> n == 0
    decreases Rank(pc)
  {
    n := 0;
    if pc == Admission {
      n := BodyTrouble(Resolve(d, q), BodyStart(Resolve(d, q)), s, faults);
    } else if !pc.Done? {
      var next := Read(s, Head(faults), FrontNext(d, q, pc)).pc;
      n := FrontTrouble(d, q, next, s, Tail(faults));
      var e := FrontRun(d, q, next, s, Tail(faults));
      assert FrontRun(d, q, pc, s, faults) == e;
      UsedMore(faults, n, e.faults, e.outcome == Failed(CallFailed));
      n := if faults == [] then n else n + 1;
    }
  }

  /** Create makes n calls; one that fails or is answered late is its last, and its failure is what is reported. */
  lemma CreateTrouble(d: Driver, q: Request, s: State, faults: seq<Fault>) returns (n: nat)
    ensures var e := CreateVolume(d, q, s, faults);
      && n <= |faults| && e.faults == faults[n..]
      && (forall i :: 0 <= i < n && faults[i] != Clean ==> i == n - 1 && e.outcome == Failed(CallFailed))
  {
    n := FrontTrouble(d, q, CheckPrimary, s, faults);
  }

  lemma {:induction false} DeleteTrouble(x: Doomed, known: bool, pc: DelPc, s: State, faults: seq<Fault>)
    returns (n: nat)
    ensures var e := DelRun(x, known, pc, s, faults);
      && n <= |faults| && e.faults == faults[n..]
      && (forall i :: 0 <= i < n && faults[i] != Clean ==> i == n - 1 && !e.deleted)
    ensures Over(pc) ==> n == 0
    decreases DelRank(pc)
  {
    n := 0;
    if !Over(pc) {
      var turn := DelStep(x, known, pc, s, Head(faults));
      n := DeleteTrouble(x, known, turn.pc, turn.state, Tail(faults));
      var e := DelRun(x, known, turn.pc, turn.state, Tail(faults));
      UsedMore(faults, n, e.faults, !e.deleted);
      n := if faults == [] then n else n + 1;
    }
  }

  // ---------- what an undisturbed create leaves on a backend that has nothing of the volume ----------

  /** A file name that neither starts nor ends in an exclamation mark. */
  predicate PlainText(name: string) {
    Bare(name) && '/' !in name && name != "." && name != ".."
  }

  lemma PlainTextIsPlain(name: string)
    requires PlainText(name)
    ensures PlainName(name)
  {
    TrimExactly("", name, "");
    assert "" + name + "" == name;
  }

  /** The primary fileset is linked at slashes, a path and perhaps a slash below the primary mount point. */
  predicate PrimaryAt(d: Driver, l: string, core: string, tail: string) {
    && d.primaryLink == d.primaryMount + l + core + tail
    && Edging(l) && Bare(core) && (tail == "" || tail == "/")
    && FsKey(d.primaryCid, d.primaryFs) in d.filesystems
  }

  /** The place of a volume's link. */
  function LinkPlace(d: Driver, core: string, name: string): Loc {
    Loc(Info(d, d.primaryCid, d.primaryFs).device, Resolved(core) + [".volumes", name])
  }

  lemma LinkPlaceIs(d: Driver, l: string, core: string, tail: string, name: string)
    requires PrimaryAt(d, l, core, tail) && PlainText(name)
    ensures LocOf(Info(d, d.primaryCid, d.primaryFs).device, SlnkRelPath(d, name)) == LinkPlace(d, core, name)
    ensures SymlinkAbs(d.primaryLink) + "/" + name == d.primaryMount + l + core + "/.volumes/" + name
    ensures RelPath(SymlinkAbs(d.primaryLink) + "/" + name, d.primaryMount) == SlnkRelPath(d, name)
  {
    LinkPathRecomputed(d.primaryMount, l, core, tail, name);
    LinkPathLeads(core, name);
  }

  lemma LinkPathLeads(core: string, name: string)
    requires '/' !in name && name != "" && name != "." && name != ".."
    ensures Resolved(core + "/.volumes/" + name) == Resolved(core) + [".volumes", name]
  {
    VolumesBelow(core, ".volumes");
    ResolvedBelow(core + VOLUMES, name);
    VolumesName(core, name);
    FourTails(core, name);
    assert Resolved(core) + [".volumes"] + [name] == Resolved(core) + [".volumes", name];
  }

  /** On this filesystem there is no fileset of the name, and nothing in a directory of the name. */
  ghost predicate Untouched(s: State, device: string, name: string) {
    && FsetKey(device, name) !in s.filesets
    && (forall l :: l in s.dirs && l.device == device ==> l.path == [] || l.path[0] != name)
    && (forall l :: l in s.symlinks && l.device == device ==> l.path == [] || l.path[0] != name)
    && (forall o :: o in s.filesets && o.device == device && s.filesets[o].root != [] ==> s.filesets[o].root[0] != name)
  }

  lemma UntouchedIsReady(v: Volume, s: State)
    requires v.isFileset && Sound(v) && Untouched(s, v.info.device, v.name)
    ensures NewRoot(v) == [v.name]
    ensures DataLoc(v, DataDir(v, v.junction)) == Loc(v.info.device, [v.name, v.name + "-data"])
    ensures JunctionFree(v, s) && QuotaFits(v, s)
  {
    JunctionPlaces(v.info.mount, v.name);
    var k, place := Key(v), NewRoot(v);
    assert !Present(s, Loc(k.device, place)) by {
      assert Loc(k.device, place).path[0] == v.name;
    }
    assert !Conflict(s, k, place) by {
      forall o | o in s.filesets && o.device == k.device ensures !(place <= s.filesets[o].root) {
        assert place[0] == v.name;
      }
    }
  }

  /** The primary fileset is linked, and both filesystems are there and mounted. */
  predicate Attended(d: Driver, q: Request) {
    && d.primaryLinked
    && FsKey(d.primaryCid, d.primaryFs) in d.filesystems && d.filesystems[FsKey(d.primaryCid, d.primaryFs)].mounted
    && FsKey(d.primaryCid, q.backendFs) in d.filesystems && d.filesystems[FsKey(d.primaryCid, q.backendFs)].mounted
  }

  /** The owner's side of the filesystem can take a fileset volume of the size. */
  predicate Serves(d: Driver, c: string, q: Request, o: FsKey) {
    && c == (if q.clusterId != "" then q.clusterId else d.primaryCid)
    && (q.clusterId == "" ==> !Info(d, d.primaryCid, q.backendFs).isRemote)
    && Leads(d, c, q.backendFs, o) && o in d.filesystems
    && var info := d.filesystems[o];
       !info.isRemote && info.mount != "" && (c != d.primaryCid ==> info.mounted) && (q.size != 0 ==> info.quotaOn)
  }

  /**
   A fileset volume from nothing: a fileset linked at mount/name with the size in KiB, rounded up; its junction and the
   directory "name-data" in it; in ".volumes" of the primary fileset a link to that directory, on the filesystem as the
   primary cluster has it; and the identifier that says all this.
   */
  lemma FilesetMade(d: Driver, q: Request, c: string, o: FsKey, l: string, core: string, tail: string, s: State)
    requires q.isFileset && PlainText(q.name) && Attended(d, q) && Serves(d, c, q, o) && PrimaryAt(d, l, core, tail)
    requires Untouched(s, d.filesystems[o].device, q.name) && !Present(s, LinkPlace(d, core, q.name))
    ensures var listed, link := d.filesystems[FsKey(d.primaryCid, q.backendFs)], LinkPlace(d, core, q.name);
      CreateVolume(d, q, s, []) == Ending(
        Created(c + ";" + listed.uuid + ";filesetName=" + q.name + ";path=" +
                (d.primaryMount + l + core + "/.volumes/" + q.name)),
        WithFilesetVolume(s, d.filesystems[o], q.name, (q.size + 1023) / 1024, link, listed.device), [])
  {
    NewLimit(q.size);
    FilesetResolved(d, q, c, o, l, core, tail);
    MadeFromNothing(Resolve(d, q), s);
    UndisturbedCompletes(d, q, s);
  }

  /** What create works out for such a request. */
  lemma FilesetResolved(d: Driver, q: Request, c: string, o: FsKey, l: string, core: string, tail: string)
    requires q.isFileset && PlainText(q.name) && Attended(d, q) && Serves(d, c, q, o) && PrimaryAt(d, l, core, tail)
    ensures var v, listed := Resolve(d, q), d.filesystems[FsKey(d.primaryCid, q.backendFs)];
      && v.isFileset && v.name == q.name && v.size == q.size && v.info == d.filesystems[o]
      && v.junction == v.info.mount + "/" + q.name && v.localDevice == listed.device
      && v.slnk == LinkPlace(d, core, q.name)
      && v.id == c + ";" + listed.uuid + ";filesetName=" + q.name + ";path=" +
                 (d.primaryMount + l + core + "/.volumes/" + q.name)
      && FrontOk(d, q) && Reachable(v) && Sound(v)
      && v.slnk != Loc(v.info.device, [v.name]) && v.slnk != Loc(v.info.device, [v.name, v.name + "-data"])
  {
    FilesetFilesystem(d, q, c, o);
    ServesIsReady(d, q, c, o);
    LinkPlaceIs(d, l, core, tail, q.name);
    LinkElsewhere(d, core, q.name, d.filesystems[o].device);
    PlainTextIsPlain(q.name);
    ResolvedIsSound(d, q);
  }

  lemma MadeFromNothing(v: Volume, s: State)
    requires v.isFileset && Reachable(v) && Sound(v)
    requires Untouched(s, v.info.device, v.name) && !Present(s, v.slnk)
    requires v.slnk != Loc(v.info.device, [v.name]) && v.slnk != Loc(v.info.device, [v.name, v.name + "-data"])
    ensures Ready(v, s) && Complete(v, s) == MadeState(v, s)
  {
    UntouchedIsReady(v, s);
    NothingAtData(v, s, Loc(v.info.device, [v.name, v.name + "-data"]));
    CompletedFromNothing(v, s);
  }

  lemma UndisturbedCompletes(d: Driver, q: Request, s: State)
    requires FrontOk(d, q) && Ready(Resolve(d, q), s)
    ensures CreateVolume(d, q, s, []) == Ending(Created(VolId(d, q)), Complete(Resolve(d, q), s), [])
  {
    CleanAttemptSucceeds(d, q, s);
    AttemptAdvances(d, q, s, []);
  }

  /** The backend with a fileset of this limit in KiB, its two directories, and a link to the inner one. */
  function WithFilesetVolume(s: State, info: FsInfo, name: string, limitKiB: Limit, link: Loc, local: string): State {
    State(s.filesets[FsetKey(info.device, name) := Fileset(info.mount + "/" + name, [name], limitKiB)],
          s.dirs + {Loc(info.device, [name]), Loc(info.device, [name, name + "-data"])},
          s.symlinks[link := Loc(local, [name, name + "-data"])])
  }

  function MadeState(v: Volume, s: State): State {
    WithFilesetVolume(s, v.info, v.name, Kib(v.size), v.slnk, v.localDevice)
  }

  lemma ServesIsReady(d: Driver, q: Request, c: string, o: FsKey)
    requires q.isFileset && Attended(d, q) && Serves(d, c, q, o)
    ensures FrontOk(d, q) && Reachable(Resolve(d, q))
    ensures VolId(d, q) ==
      c + ";" + Info(d, d.primaryCid, q.backendFs).uuid + ";filesetName=" + q.name + ";path=" +
      (SymlinkAbs(d.primaryLink) + "/" + q.name)
  {
    FilesetFilesystem(d, q, c, o);
  }

  lemma CompletedFromNothing(v: Volume, s: State)
    requires v.isFileset && Key(v) !in s.filesets && NewRoot(v) == [v.name] && !Present(s, v.slnk)
    requires v.junction == v.info.mount + "/" + v.name && v.slnk != Loc(v.info.device, [v.name])
    requires var data := Loc(v.info.device, [v.name, v.name + "-data"]);
      DataLoc(v, DataDir(v, v.junction)) == data && !Present(s, data) && v.slnk != data
    ensures Complete(v, s) == MadeState(v, s)
  {
    var t, data := DataDir(v, v.junction), Loc(v.info.device, [v.name, v.name + "-data"]);
    FinishedFromNothing(v, s);
    CompleteIs(v, s, WithFileset(v, s), t, data);
    AllAdded(v, WithFileset(v, s), s, data);
  }

  lemma CompleteIs(v: Volume, s: State, w: State, t: string, data: Loc)
    requires w == WithFileset(v, s) && t == Goal(v, s) && DataLoc(v, t) == data
    ensures Complete(v, s) == CreateSymLink(MakeDirectory(w, data), v.slnk, Loc(v.localDevice, data.path))
  {
  }

  lemma NothingAtData(v: Volume, s: State, data: Loc)
    requires Untouched(s, v.info.device, v.name) && data == Loc(v.info.device, [v.name, v.name + "-data"])
    ensures !Present(s, data) && data != Loc(v.info.device, [v.name])
  {
    assert data.path[0] == v.name && |data.path| == 2;
  }

  lemma AllAdded(v: Volume, w: State, s: State, data: Loc)
    requires w == State(s.filesets[Key(v) := Fileset(v.junction, [v.name], Kib(v.size))],
                        s.dirs + {Loc(v.info.device, [v.name])}, s.symlinks)
    requires v.junction == v.info.mount + "/" + v.name && data == Loc(v.info.device, [v.name, v.name + "-data"])
    requires !Present(s, data) && !Present(s, v.slnk) && v.slnk != data && v.slnk != Loc(v.info.device, [v.name])
    ensures CreateSymLink(MakeDirectory(w, data), v.slnk, Loc(v.localDevice, data.path)) == MadeState(v, s)
  {
    assert data != Loc(v.info.device, [v.name]);
    assert w.dirs + {data} == s.dirs + {Loc(v.info.device, [v.name]), data};
  }

  lemma LinkElsewhere(d: Driver, core: string, name: string, device: string)
    ensures LinkPlace(d, core, name) != Loc(device, [name])
    ensures LinkPlace(d, core, name) != Loc(device, [name, name + "-data"])
  {
    var path := LinkPlace(d, core, name).path;
    assert |path| == |Resolved(core)| + 2 && path[|path| - 1] == name;
    assert name + "-data" != name;
  }

  lemma FinishedFromNothing(v: Volume, s: State)
    requires v.isFileset && Key(v) !in s.filesets && NewRoot(v) == [v.name]
    ensures WithFileset(v, s) ==
      State(s.filesets[Key(v) := Fileset(v.junction, [v.name], Kib(v.size))],
            s.dirs + {Loc(v.info.device, [v.name])}, s.symlinks)
    ensures Goal(v, s) == DataDir(v, v.junction)
  {
    NewLimit(v.size);
    assert FilesetAt(s, Key(v)).None?;
  }

  lemma NewLimit(size: UInt64)
    ensures LimitBytes(0) == 0 && Kib(size) < INT63 && Kib(size) == (size + 1023) / 1024 && Kib(0) == 0
  {
    StoredPrinted(size);
  }

  /** A lightweight volume from nothing: the directory dirBase/name, a link to it, an identifier without a fileset. */
  lemma LightweightMade(d: Driver, q: Request, l: string, core: string, tail: string, s: State)
    requires !q.isFileset && PlainText(q.name) && Attended(d, q) && PrimaryAt(d, l, core, tail)
    requires var device := d.filesystems[FsKey(d.primaryCid, q.backendFs)].device;
      var data := Loc(device, Resolved(q.dirBase) + [q.name]);
      && Present(s, Loc(device, Resolved(q.dirBase)))
      && !Present(s, data) && !Present(s, LinkPlace(d, core, q.name)) && data != LinkPlace(d, core, q.name)
    ensures var fs := d.filesystems[FsKey(d.primaryCid, q.backendFs)];
      var data := Loc(fs.device, Resolved(q.dirBase) + [q.name]);
      && var e := CreateVolume(d, q, s, []);
      && e.faults == []
      && e.outcome ==
         Created(d.primaryCid + ";" + fs.uuid + ";path=" + (d.primaryMount + l + core + "/.volumes/" + q.name))
      && e.state == State(s.filesets, s.dirs + {data}, s.symlinks[LinkPlace(d, core, q.name) := data])
  {
    var v := Resolve(d, q);
    LinkPlaceIs(d, l, core, tail, q.name);
    ResolvedBelow(q.dirBase, q.name);
    UndisturbedCompletes(d, q, s);
    var data := DataLoc(v, DataDir(v, ""));
    assert Goal(v, s) == DataDir(v, "");
    assert Complete(v, s) == CreateSymLink(MakeDirectory(s, data), v.slnk, data);
  }

  // ---------- what an undisturbed delete takes away ----------

  lemma GoneExactly(x: Doomed, name: string, s: State)
    requires x.isFilesetBased && name != "" && Base(x.slnkRel) == name && FsetKey(x.device, name) in s.filesets
    requires if x.fsetName != "" then x.fsetName == name
      else FsetKey(x.device, x.fsetId) in x.names && x.names[FsetKey(x.device, x.fsetId)] == name
    ensures TakenAway(s, Erase(x, s), FsetKey(x.device, name), x.slnk)
  {
    assert DoomedName(x, s) == name;
    assert Erase(x, s) == DeleteSymLnk(DeleteFileset(s, FsetKey(x.device, name)), x.slnk);
  }

  /**
   The fileset is gone and no other one, the link is gone, and of directories and other links just those in the tree of
   a fileset that was linked.
   */
  ghost predicate TakenAway(s: State, s': State, k: FsetKey, link: Loc)
    requires k in s.filesets
  {
    var f := s.filesets[k];
    var linked := f.link != "" && f.link != "--";
    && s'.filesets == s.filesets - {k}
    && (forall p :: p in s'.dirs <==> p in s.dirs && !(linked && p.device == k.device && f.root <= p.path))
    && (forall p :: p in s'.symlinks <==>
          p in s.symlinks && p != link && !(linked && p.device == k.device && f.root <= p.path))
    && (forall p :: p in s'.symlinks ==> s'.symlinks[p] == s.symlinks[p])
  }

  /** An identifier's link path, and how delete reads it. */
  lemma LinkRead(d: Driver, l: string, core: string, tail: string, name: string)
    requires PrimaryAt(d, l, core, tail) && PlainText(name)
    ensures var slnkRel := RelPath(d.primaryMount + l + core + "/.volumes/" + name, d.primaryMount);
      && LocOf(Info(d, d.primaryCid, d.primaryFs).device, slnkRel) == LinkPlace(d, core, name)
      && Base(slnkRel) == name
  {
    LinkPlaceIs(d, l, core, tail, name);
    BaseOfJoined(SymlinkRel(d.primaryLink, d.primaryMount), name);
  }

  /** The parts of an identifier hold no separator, and its cluster and UUID lead to the filesystem. */
  predicate Readable(d: Driver, c: string, uuid: string, o: FsKey, part: string, slnk: string) {
    && ';' !in c && ';' !in uuid && ';' !in part && ';' !in slnk && '=' !in part && '=' !in slnk
    && uuid in d.uuidName && Leads(d, c, d.uuidName[uuid], o) && o in d.filesystems
  }

  /** Deleting by name: the fileset of the identifier's name, if the link is called like that. */
  lemma DeletedByName(d: Driver, c: string, uuid: string, o: FsKey, name: string, l: string, core: string,
      tail: string, s: State)
    requires PrimaryAt(d, l, core, tail) && PlainText(name)
    requires Readable(d, c, uuid, o, name, d.primaryMount + l + core + "/.volumes/" + name)
    requires FsetKey(d.filesystems[o].device, name) in s.filesets
    ensures var slnk := d.primaryMount + l + core + "/.volumes/" + name;
      var e := DeleteVolume(d, c + ";" + uuid + ";filesetName=" + name + ";path=" + slnk, s, []);
      e.deleted && TakenAway(s, e.state, FsetKey(d.filesystems[o].device, name), LinkPlace(d, core, name))
  {
    var slnk := d.primaryMount + l + core + "/.volumes/" + name;
    var id := c + ";" + uuid + ";filesetName=" + name + ";path=" + slnk;
    assert id == Generate(c, uuid, name, slnk, true);
    ParseInvertsGenerate(c, uuid, name, slnk, true);
    DeletedBy(d, id, Members(c, uuid, "", name, slnk, true), o, name, l, core, tail, s);
  }

  /** Deleting by fileset id: the fileset that has the id, if the link is called like it. */
  lemma DeletedById(d: Driver, c: string, uuid: string, o: FsKey, fsetId: string, name: string, l: string,
      core: string, tail: string, s: State)
    requires PrimaryAt(d, l, core, tail) && PlainText(name)
    requires Readable(d, c, uuid, o, fsetId, d.primaryMount + l + core + "/.volumes/" + name)
    requires var device := d.filesystems[o].device;
      && FsetKey(device, name) in s.filesets
      && FsetKey(device, fsetId) in d.filesetById && d.filesetById[FsetKey(device, fsetId)] == name
    ensures var slnk := d.primaryMount + l + core + "/.volumes/" + name;
      var e := DeleteVolume(d, c + ";" + uuid + ";fileset=" + fsetId + ";path=" + slnk, s, []);
      e.deleted && TakenAway(s, e.state, FsetKey(d.filesystems[o].device, name), LinkPlace(d, core, name))
  {
    var slnk := d.primaryMount + l + core + "/.volumes/" + name;
    ParseOlderForm(c, uuid, fsetId, slnk);
    DeletedBy(d, c + ";" + uuid + ";fileset=" + fsetId + ";path=" + slnk, Members(c, uuid, fsetId, "", slnk, true), o,
              name, l, core, tail, s);
  }

  lemma DeletedBy(d: Driver, id: string, m: Members, o: FsKey, name: string, l: string, core: string, tail: string,
      s: State)
    requires PrimaryAt(d, l, core, tail) && PlainText(name) && GetVolIdMembers(id) == Valid(m)
    requires m.fsUUID in d.uuidName && Leads(d, m.clusterId, d.uuidName[m.fsUUID], o) && o in d.filesystems
    requires m.isFilesetBased && m.symLnkPath == d.primaryMount + l + core + "/.volumes/" + name
    requires var device := d.filesystems[o].device;
      && FsetKey(device, name) in s.filesets
      && if m.fsetName != "" then m.fsetName == name
         else FsetKey(device, m.fsetId) in d.filesetById && d.filesetById[FsetKey(device, m.fsetId)] == name
    ensures var e := DeleteVolume(d, id, s, []);
      e.deleted && TakenAway(s, e.state, FsetKey(d.filesystems[o].device, name), LinkPlace(d, core, name))
  {
    var x := DoomedBy(d, m);
    DoomedFilesystem(d, m, o);
    LinkRead(d, l, core, tail, name);
    FilesetDeleteConverges(d, id, s, []);
    GoneExactly(x, name, s);
  }

  /** A fileset that the link is not called like stays, and only the link goes. */
  lemma OtherFilesetStays(d: Driver, id: string, m: Members, o: FsKey, name: string, l: string, core: string,
      tail: string, s: State)
    requires PrimaryAt(d, l, core, tail) && PlainText(name) && GetVolIdMembers(id) == Valid(m)
    requires m.fsUUID in d.uuidName && Leads(d, m.clusterId, d.uuidName[m.fsUUID], o) && o in d.filesystems
    requires m.isFilesetBased && m.symLnkPath == d.primaryMount + l + core + "/.volumes/" + name
    requires if m.fsetName != "" then m.fsetName != name
      else var k := FsetKey(d.filesystems[o].device, m.fsetId); k in d.filesetById ==> d.filesetById[k] != name
    ensures DeleteVolume(d, id, s, []) ==
      DelEnding(true, s.(symlinks := s.symlinks - {LinkPlace(d, core, name)}), [])
  {
    var x := DoomedBy(d, m);
    DoomedFilesystem(d, m, o);
    LinkRead(d, l, core, tail, name);
    FilesetDeleteConverges(d, id, s, []);
    assert DoomedName(x, s) == "";
    assert Erase(x, s) == DeleteSymLnk(s, x.slnk);
    var _ := DeleteTrouble(x, true, FindFsName, s, []);
  }

  /** A lightweight volume: the directory the link leads to goes with all that is in it, and the link. */
  lemma DeletedDirectory(d: Driver, c: string, uuid: string, o: FsKey, name: string, l: string, core: string,
      tail: string, s: State)
    requires PrimaryAt(d, l, core, tail) && PlainText(name)
    requires Readable(d, c, uuid, o, "", d.primaryMount + l + core + "/.volumes/" + name)
    requires LinkPlace(d, core, name) in s.symlinks && s.symlinks[LinkPlace(d, core, name)] in s.dirs
    ensures var slnk := d.primaryMount + l + core + "/.volumes/" + name;
      var link := LinkPlace(d, core, name);
      var root, e := s.symlinks[link], DeleteVolume(d, c + ";" + uuid + ";path=" + slnk, s, []);
      && e.deleted && e.state.filesets == s.filesets
      && (forall p :: p in e.state.dirs <==> p in s.dirs && !(p.device == root.device && root.path <= p.path))
      && (forall p :: p in e.state.symlinks <==>
            p in s.symlinks && p != link && !(p.device == root.device && root.path <= p.path))
      && (forall p :: p in e.state.symlinks ==> e.state.symlinks[p] == s.symlinks[p])
  {
    var slnk := d.primaryMount + l + core + "/.volumes/" + name;
    var id := c + ";" + uuid + ";path=" + slnk;
    assert id == Generate(c, uuid, "", slnk, false);
    ParseInvertsGenerate(c, uuid, "", slnk, false);
    LinkRead(d, l, core, tail, name);
    LightweightDeleteSucceedsExactly(d, id, s);
  }

  // ---------- identifiers that cannot be read ----------

  /**
   An identifier that is not empty and has neither three nor four parts, or whose last parts are no fields, is reported
   as deleted, whatever goes wrong; the empty one is not. Nothing changes.
   */
  lemma UnreadableIsDeleted(d: Driver, parts: seq<string>, id: string, s: State, faults: seq<Fault>)
    requires parts != [] && id == Join(parts, ';') && forall i :: 0 <= i < |parts| ==> ';' !in parts[i]
    requires |parts| == 3 ==> '=' !in parts[2]
    requires |parts| == 4 ==> '=' !in parts[2] || '=' !in parts[3]
    ensures DeleteVolume(d, id, s, faults) == DelEnding(id != "", s, faults)
  {
    SplitJoin(parts, ';');
    Unreadable(id);
  }

  lemma Unreadable(id: string)
    requires var parts := Split(id, ';');
      && (|parts| == 3 ==> '=' !in parts[2])
      && (|parts| == 4 ==> '=' !in parts[2] || '=' !in parts[3])
    ensures GetVolIdMembers(id) == Invalid
  {
    var parts := Split(id, ';');
    if |parts| >= 3 {
      SplitMore(parts[2], '=');
    }
    if |parts| == 4 {
      SplitMore(parts[3], '=');
    }
  }

  /** One that names a cluster without connector, or a filesystem the primary cluster does not know, is not deleted. */
  lemma UnknownIsRefused(d: Driver, id: string, m: Members, s: State, faults: seq<Fault>)
    requires GetVolIdMembers(id) == Valid(m)
    requires m.clusterId !in d.connmap || m.fsUUID !in d.uuidName ||
      FsKey(d.primaryCid, d.uuidName[m.fsUUID]) !in d.filesystems
    ensures !DeleteVolume(d, id, s, faults).deleted && DeleteVolume(d, id, s, faults).state == s
  {
  }
}
