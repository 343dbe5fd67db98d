/** DeleteVolume as a step machine, and why it can be retried. */
module Delete {
  import opened Strings
  import opened Paths
  import opened Backend
  import opened Create
  import opened VolumeId

  /**
   What DeleteVolume has resolved from an identifier before its first mutating call: the filesystem that holds the data,
   and the link, as a path and as the place it leads to.
   */
  datatype Doomed = Doomed(device: string, fsetId: string, fsetName: string, isFilesetBased: bool,
                           slnkRel: string, slnk: Loc, names: map<FsetKey, string>)

  datatype DelPc =
    | FindFsName | FindDevice | FindName | RemoveFileset(name: string) | RemoveDir | RemoveSlnk
    | Deleted | NotDeleted

  datatype DelTurn = DelTurn(pc: DelPc, state: State)

  function DelRank(pc: DelPc): nat {
    match pc
    case FindFsName => 6 case FindDevice => 5 case FindName => 4
    case RemoveFileset(_) => 3 case RemoveDir => 3 case RemoveSlnk => 2
    case Deleted => 0 case NotDeleted => 0
  }

  predicate Over(pc: DelPc) {
    pc.Deleted? || pc.NotDeleted?
  }

  /** The name the filesystem has on the primary cluster. */
  function FsName(d: Driver, m: Members): string {
    if m.fsUUID in d.uuidName then d.uuidName[m.fsUUID] else ""
  }

  function DoomedBy(d: Driver, m: Members): Doomed {
    var owner := if m.clusterId in d.connmap then d.connmap[m.clusterId] else "";
    var fs := LastDevice(Info(d, d.primaryCid, FsName(d, m)).remoteDevice);
    var slnkRel := RelPath(m.symLnkPath, d.primaryMount);
    Doomed(Info(d, owner, fs).device, m.fsetId, m.fsetName, m.isFilesetBased, slnkRel,
           LocOf(Info(d, d.primaryCid, d.primaryFs).device, slnkRel), d.filesetById)
  }

  /** GetFileSetNameFromId: the empty name for an id that no existing fileset has. */
  function NameFromId(x: Doomed, s: State): string {
    var id := FsetKey(x.device, x.fsetId);
    if id in x.names && FsetKey(x.device, x.names[id]) in s.filesets then x.names[id] else ""
  }

  /** A fileset is deleted only if it is the one the symbolic link is named after. */
  function AfterName(x: Doomed, name: string): (next: DelPc)
    ensures DelRank(next) <= 3
  {
    if name != "" && Base(x.slnkRel) == name then RemoveFileset(name) else RemoveSlnk
  }

  function AfterDevice(x: Doomed): (next: DelPc)
    ensures DelRank(next) <= 4
  {
    if !x.isFilesetBased then RemoveDir
    else if x.fsetName != "" then AfterName(x, x.fsetName)
    else FindName
  }

  function DelRead(s: State, f: Fault, next: DelPc): DelTurn {
    DelTurn(if f == Clean then next else NotDeleted, s)
  }

  function DelWrite(s: State, e: Effect, f: Fault, next: DelPc): DelTurn {
    match f
    case Clean => DelTurn(if e.ok then next else NotDeleted, e.state)
    case Lost => DelTurn(NotDeleted, s)
    case Late => DelTurn(NotDeleted, e.state)
  }

  /** The two look-ups on the primary cluster; known says whether their objects exist. */
  function DelStep(x: Doomed, known: bool, pc: DelPc, s: State, f: Fault): (r: DelTurn)
    requires !Over(pc)
    ensures DelRank(r.pc) < DelRank(pc)
  {
    match pc
    case FindFsName => DelRead(s, f, if known then FindDevice else NotDeleted)
    case FindDevice => DelRead(s, f, AfterDevice(x))
    case FindName => DelRead(s, f, AfterName(x, NameFromId(x, s)))
    case RemoveFileset(name) => DelWrite(s, Effect(DeleteFileset(s, FsetKey(x.device, name)), true), f, RemoveSlnk)
    case RemoveDir => DelWrite(s, DeleteDirectory(s, x.slnk), f, RemoveSlnk)
    case RemoveSlnk => DelWrite(s, Effect(DeleteSymLnk(s, x.slnk), true), f, Deleted)
  }

  datatype DelEnding = DelEnding(deleted: bool, state: State, faults: seq<Fault>)

  function DelRun(x: Doomed, known: bool, pc: DelPc, s: State, faults: seq<Fault>): DelEnding
    decreases DelRank(pc)
  {
    if Over(pc) then DelEnding(pc.Deleted?, s, faults)
    else
      var turn := DelStep(x, known, pc, s, Head(faults));
      DelRun(x, known, turn.pc, turn.state, Tail(faults))
  }

  /** The primary cluster knows a filesystem with the identifier's UUID. */
  predicate FsKnown(d: Driver, m: Members) {
    m.fsUUID in d.uuidName && FsKey(d.primaryCid, d.uuidName[m.fsUUID]) in d.filesystems
  }

  /** One whole attempt. An identifier that cannot be read is reported as deleted without touching anything. */
  function DeleteVolume(d: Driver, volumeId: string, s: State, faults: seq<Fault>): DelEnding {
    match GetVolIdMembers(volumeId)
    case Invalid => DelEnding(volumeId != "", s, faults)
    case Valid(m) =>
      if m.clusterId !in d.connmap then DelEnding(false, s, faults)
      else DelRun(DoomedBy(d, m), FsKnown(d, m), FindFsName, s, faults)
  }

  // ---------- the state an undisturbed attempt aims at ----------

  /** The fileset an attempt is going to delete, if any. */
  function DoomedName(x: Doomed, s: State): string {
    var name := if x.fsetName != "" then x.fsetName else NameFromId(x, s);
    if Base(x.slnkRel) == name then name else ""
  }

  function Cleared(x: Doomed, s: State): State {
    if x.isFilesetBased
    then (if DoomedName(x, s) != "" then DeleteFileset(s, FsetKey(x.device, DoomedName(x, s))) else s)
    else DeleteDirectory(s, x.slnk).state
  }

  /** Everything of the volume removed, nothing else changed. */
  function Erase(x: Doomed, s: State): State {
    DeleteSymLnk(Cleared(x, s), x.slnk)
  }

  /** The program point agrees with what the identifier asks for. */
  predicate OnCourse(x: Doomed, pc: DelPc) {
    match pc
    case FindName => x.isFilesetBased && x.fsetName == ""
    case RemoveFileset(name) =>
      x.isFilesetBased && name != "" && Base(x.slnkRel) == name &&
      (x.fsetName == "" ==> FsetKey(x.device, x.fsetId) in x.names && x.names[FsetKey(x.device, x.fsetId)] == name) &&
      (x.fsetName != "" ==> x.fsetName == name)
    case RemoveDir => !x.isFilesetBased
    case _ => true
  }

  /** Nothing but the link is left to do. */
  predicate OnlyLink(x: Doomed, s: State) {
    Erase(x, s) == DeleteSymLnk(s, x.slnk)
  }

  predicate DelKnows(x: Doomed, pc: DelPc, s: State) {
    OnCourse(x, pc) && (pc.RemoveSlnk? ==> OnlyLink(x, s)) && (pc.Deleted? ==> Erase(x, s) == s)
  }

  lemma FilesetGone(x: Doomed, s: State, name: string)
    requires OnCourse(x, RemoveFileset(name))
    ensures Erase(x, DeleteFileset(s, FsetKey(x.device, name))) == Erase(x, s)
    ensures OnlyLink(x, DeleteFileset(s, FsetKey(x.device, name)))
  {
  }

  lemma LinkGone(x: Doomed, s: State)
    requires x.isFilesetBased
    ensures Erase(x, DeleteSymLnk(s, x.slnk)) == Erase(x, s)
  {
    var s' := DeleteSymLnk(s, x.slnk);
    assert DoomedName(x, s') == DoomedName(x, s);
    LinkAndFileset(s, FsetKey(x.device, DoomedName(x, s)), x.slnk);
    assert DeleteSymLnk(s', x.slnk) == s';
  }

  /** Deleting a fileset and deleting a link commute, up to the link. */
  lemma LinkAndFileset(s: State, k: FsetKey, l: Loc)
    ensures DeleteSymLnk(DeleteFileset(DeleteSymLnk(s, l), k), l) == DeleteSymLnk(DeleteFileset(s, k), l)
  {
    assert DeleteFileset(DeleteSymLnk(s, l), k).symlinks - {l} == DeleteFileset(s, k).symlinks - {l};
  }

  /** For fileset volumes no step, whatever its fault, changes where an undisturbed attempt ends. */
  lemma FilesetDelStep(x: Doomed, known: bool, pc: DelPc, s: State, f: Fault)
    requires x.isFilesetBased && !Over(pc) && DelKnows(x, pc, s)
    ensures var turn := DelStep(x, known, pc, s, f);
      Erase(x, turn.state) == Erase(x, s) && DelKnows(x, turn.pc, turn.state)
  {
    match pc {
      case RemoveFileset(name) => FilesetGone(x, s, name);
      case RemoveSlnk =>
        LinkGone(x, s);
        assert DeleteSymLnk(DeleteSymLnk(s, x.slnk), x.slnk) == DeleteSymLnk(s, x.slnk);
      case _ =>
    }
  }

  lemma {:induction false} FilesetDelRun(x: Doomed, known: bool, pc: DelPc, s: State, faults: seq<Fault>)
    requires x.isFilesetBased && DelKnows(x, pc, s)
    ensures var e := DelRun(x, known, pc, s, faults);
      Erase(x, e.state) == Erase(x, s) && (e.deleted ==> e.state == Erase(x, s))
    ensures faults == [] ==> (DelRun(x, known, pc, s, []).deleted <==> !pc.NotDeleted? && (pc.FindFsName? ==> known))
    decreases DelRank(pc)
  {
    if !Over(pc) {
      var turn := DelStep(x, known, pc, s, Head(faults));
      FilesetDelStep(x, known, pc, s, Head(faults));
      FilesetDelRun(x, known, turn.pc, turn.state, Tail(faults));
    }
  }

  /** The backend after a series of attempts, each with its own faults. */
  function Deletes(d: Driver, volumeId: string, s: State, scripts: seq<seq<Fault>>): State
    decreases |scripts|
  {
    if scripts == [] then s else Deletes(d, volumeId, DeleteVolume(d, volumeId, s, scripts[0]).state, scripts[1..])
  }

  /** An identifier that leads to a connector and a filesystem. */
  predicate Resolvable(d: Driver, volumeId: string) {
    var p := GetVolIdMembers(volumeId);
    p.Valid? && p.members.clusterId in d.connmap && FsKnown(d, p.members)
  }

  lemma {:induction false} DeletesKeepGoal(d: Driver, volumeId: string, s: State, scripts: seq<seq<Fault>>)
    requires Resolvable(d, volumeId) && GetVolIdMembers(volumeId).members.isFilesetBased
    ensures var x := DoomedBy(d, GetVolIdMembers(volumeId).members);
      Erase(x, Deletes(d, volumeId, s, scripts)) == Erase(x, s)
    decreases |scripts|
  {
    if scripts != [] {
      var m := GetVolIdMembers(volumeId).members;
      FilesetDelRun(DoomedBy(d, m), true, FindFsName, s, scripts[0]);
      DeletesKeepGoal(d, volumeId, DeleteVolume(d, volumeId, s, scripts[0]).state, scripts[1..]);
    }
  }

  /**
   Deleting a fileset volume can be retried and repeated, for both forms of identifier: after any attempts with any
   faults an undisturbed one succeeds and leaves what a single undisturbed one would have left, and one more changes
   nothing.
   */
  lemma FilesetDeleteConverges(d: Driver, volumeId: string, s: State, scripts: seq<seq<Fault>>)
    requires Resolvable(d, volumeId) && GetVolIdMembers(volumeId).members.isFilesetBased
    ensures var s', once := Deletes(d, volumeId, s, scripts), DeleteVolume(d, volumeId, s, []);
      && once.deleted && once.state == Erase(DoomedBy(d, GetVolIdMembers(volumeId).members), s)
      && DeleteVolume(d, volumeId, s', []).deleted
      && DeleteVolume(d, volumeId, s', []).state == once.state
      && DeleteVolume(d, volumeId, once.state, []).deleted
      && DeleteVolume(d, volumeId, once.state, []).state == once.state
  {
    var x := DoomedBy(d, GetVolIdMembers(volumeId).members);
    var s' := Deletes(d, volumeId, s, scripts);
    DeletesKeepGoal(d, volumeId, s, scripts);
    FilesetDelRun(x, true, FindFsName, s, []);
    FilesetDelRun(x, true, FindFsName, s', []);
    FilesetDelRun(x, true, FindFsName, DeleteVolume(d, volumeId, s, []).state, []);
  }

  // ---------- lightweight volumes ----------

  /** A path holds a symbolic link or a directory, not both. */
  predicate OneObject(s: State, l: Loc) {
    l in s.symlinks ==> l !in s.dirs
  }

  /**
   One attempt on a lightweight volume: with the directory its link leads to gone it is refused and changes nothing;
   otherwise it changes nothing or takes that directory away.
   */
  lemma LightweightAttempt(x: Doomed, s: State, faults: seq<Fault>)
    requires !x.isFilesetBased && OneObject(s, x.slnk)
    ensures var e, root := DelRun(x, true, FindFsName, s, faults), Follow(s, x.slnk);
      && OneObject(e.state, x.slnk)
      && (root !in s.dirs ==> !e.deleted && e.state == s)
      && (e.state == s || (root !in e.state.dirs && Follow(e.state, x.slnk) !in e.state.dirs))
      && (e.deleted ==> e.state == Erase(x, s) && root !in e.state.dirs && Follow(e.state, x.slnk) !in e.state.dirs)
  {
    var f2 := Tail(faults);
    var f3 := Tail(f2);
    assert DelRun(x, true, FindFsName, s, faults) ==
      if Head(faults) == Clean then DelRun(x, true, FindDevice, s, f2) else DelEnding(false, s, f2);
    assert DelRun(x, true, FindDevice, s, f2) ==
      if Head(f2) == Clean then DelRun(x, true, RemoveDir, s, f3) else DelEnding(false, s, f3);
    DirectoryCall(x, s, f3);
  }

  lemma DirectoryCall(x: Doomed, s: State, faults: seq<Fault>)
    requires !x.isFilesetBased && OneObject(s, x.slnk)
    ensures var e, root := DelRun(x, true, RemoveDir, s, faults), Follow(s, x.slnk);
      && OneObject(e.state, x.slnk)
      && (root !in s.dirs ==> !e.deleted && e.state == s)
      && (e.state == s || (root !in e.state.dirs && Follow(e.state, x.slnk) !in e.state.dirs))
      && (e.deleted ==> e.state == Erase(x, s) && root !in e.state.dirs && Follow(e.state, x.slnk) !in e.state.dirs)
  {
    var root, rest := Follow(s, x.slnk), Tail(faults);
    if root in s.dirs {
      var s1 := RemoveTree(s, root);
      assert root !in s1.dirs && Follow(s1, x.slnk) !in s1.dirs;
      assert DelRun(x, true, RemoveDir, s, faults) ==
        if Head(faults) == Clean then DelRun(x, true, RemoveSlnk, s1, rest)
        else DelEnding(false, if Head(faults) == Lost then s else s1, rest);
      assert DelRun(x, true, RemoveSlnk, s1, rest) ==
        DelEnding(Head(rest) == Clean, if Head(rest) == Lost then s1 else DeleteSymLnk(s1, x.slnk), Tail(rest));
      assert x.slnk !in s1.dirs || x.slnk !in s.symlinks;
    } else {
      assert DelRun(x, true, RemoveDir, s, faults) == DelEnding(false, s, rest);
    }
  }

  /** Without faults lightweight delete succeeds exactly when the directory its symbolic link leads to is there. */
  lemma LightweightDeleteSucceedsExactly(d: Driver, volumeId: string, s: State)
    requires Resolvable(d, volumeId) && !GetVolIdMembers(volumeId).members.isFilesetBased
    ensures var x, e := DoomedBy(d, GetVolIdMembers(volumeId).members), DeleteVolume(d, volumeId, s, []);
      && (e.deleted <==> Follow(s, x.slnk) in s.dirs)
      && e.state == if e.deleted then Erase(x, s) else s
  {
    var x := DoomedBy(d, GetVolIdMembers(volumeId).members);
    var s1 := DeleteDirectory(s, x.slnk).state;
    assert DelRun(x, true, FindDevice, s, []) == DelRun(x, true, RemoveDir, s, []);
    if DeleteDirectory(s, x.slnk).ok {
      assert DelRun(x, true, RemoveDir, s, []) == DelRun(x, true, RemoveSlnk, s1, []);
    }
  }

  /** Once the directory is gone, no attempt changes anything any more. */
  lemma {:induction false} LightweightStuck(d: Driver, volumeId: string, s: State, scripts: seq<seq<Fault>>)
    requires Resolvable(d, volumeId) && !GetVolIdMembers(volumeId).members.isFilesetBased
    requires var slnk := DoomedBy(d, GetVolIdMembers(volumeId).members).slnk;
      OneObject(s, slnk) && Follow(s, slnk) !in s.dirs
    ensures Deletes(d, volumeId, s, scripts) == s
    decreases |scripts|
  {
    if scripts != [] {
      LightweightAttempt(DoomedBy(d, GetVolIdMembers(volumeId).members), s, scripts[0]);
      LightweightStuck(d, volumeId, s, scripts[1..]);
    }
  }

  /**
   When deleting a lightweight volume can be retried: after any attempts with any faults an undisturbed one succeeds
   if and only if the directory has survived them, which is if and only if they have changed nothing.
   */
  lemma {:induction false} LightweightRetriesExactly(d: Driver, volumeId: string, s: State, scripts: seq<seq<Fault>>)
    requires Resolvable(d, volumeId) && !GetVolIdMembers(volumeId).members.isFilesetBased
    requires OneObject(s, DoomedBy(d, GetVolIdMembers(volumeId).members).slnk)
    ensures var root := Follow(s, DoomedBy(d, GetVolIdMembers(volumeId).members).slnk);
      var s' := Deletes(d, volumeId, s, scripts);
      && (DeleteVolume(d, volumeId, s', []).deleted <==> root in s'.dirs)
      && (root in s'.dirs <==> root in s.dirs && s' == s)
    decreases |scripts|
  {
    var x := DoomedBy(d, GetVolIdMembers(volumeId).members);
    if scripts == [] {
      LightweightDeleteSucceedsExactly(d, volumeId, s);
    } else {
      var s1 := DeleteVolume(d, volumeId, s, scripts[0]).state;
      LightweightAttempt(x, s, scripts[0]);
      if s1 == s {
        LightweightRetriesExactly(d, volumeId, s, scripts[1..]);
      } else {
        LightweightStuck(d, volumeId, s1, scripts[1..]);
        LightweightDeleteSucceedsExactly(d, volumeId, s1);
      }
    }
  }

  /** A lightweight volume that has been deleted cannot be deleted again: every later attempt is refused. */
  lemma LightweightSecondDeleteRefused(d: Driver, volumeId: string, s: State, faults: seq<Fault>, again: seq<Fault>)
    requires Resolvable(d, volumeId) && !GetVolIdMembers(volumeId).members.isFilesetBased
    requires OneObject(s, DoomedBy(d, GetVolIdMembers(volumeId).members).slnk)
    requires DeleteVolume(d, volumeId, s, faults).deleted
    ensures var s' := DeleteVolume(d, volumeId, s, faults).state;
      !DeleteVolume(d, volumeId, s', again).deleted && DeleteVolume(d, volumeId, s', again).state == s'
  {
    var x := DoomedBy(d, GetVolIdMembers(volumeId).members);
    LightweightAttempt(x, s, faults);
    LightweightAttempt(x, DeleteVolume(d, volumeId, s, faults).state, again);
  }

  /**
   So one answer lost after the directory call is fatal: no attempt after it succeeds, and the symbolic link stays for
   good unless it was itself in the deleted tree.
   */
  lemma LightweightRetryFails(d: Driver, volumeId: string, s: State, scripts: seq<seq<Fault>>)
    requires Resolvable(d, volumeId) && !GetVolIdMembers(volumeId).members.isFilesetBased
    requires OneObject(s, DoomedBy(d, GetVolIdMembers(volumeId).members).slnk)
    requires DeleteVolume(d, volumeId, s, []).deleted
    ensures var slnk := DoomedBy(d, GetVolIdMembers(volumeId).members).slnk;
      var s' := Deletes(d, volumeId, DeleteVolume(d, volumeId, s, [Clean, Clean, Late]).state, scripts);
      && !DeleteVolume(d, volumeId, s', []).deleted
      && (slnk in s'.symlinks <==> slnk in s.symlinks && !Within(slnk, s.symlinks[slnk]))
  {
    var x := DoomedBy(d, GetVolIdMembers(volumeId).members);
    LightweightDeleteSucceedsExactly(d, volumeId, s);
    var s1 := RemoveTree(s, Follow(s, x.slnk));
    assert DelRun(x, true, FindFsName, s, [Clean, Clean, Late]) == DelRun(x, true, FindDevice, s, [Clean, Late]);
    assert DelRun(x, true, FindDevice, s, [Clean, Late]) == DelRun(x, true, RemoveDir, s, [Late]);
    assert DelRun(x, true, RemoveDir, s, [Late]) == DelEnding(false, s1, []);
    LightweightStuck(d, volumeId, s1, scripts);
    LightweightDeleteSucceedsExactly(d, volumeId, s1);
  }
}
