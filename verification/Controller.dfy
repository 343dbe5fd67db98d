/**
  The controller server as objects: the calls that change its fields and the backend, proved against the step machines.
*/
module Controller {
  import opened Strings
  import opened Numbers
  import opened Paths
  import opened Wrappers
  import opened Backend
  import opened Create
  import Delete
  import VolumeId

  datatype Reply<+T> = Answer(value: T) | CallError

  /** The Spectrum Scale GUI behind the connectors: the backend, and the script of what goes wrong with its calls. */
  class Gui {
    var s: State
    var faults: seq<Fault>

    constructor (s: State, faults: seq<Fault>)
      ensures this.s == s && this.faults == faults
    {
      this.s, this.faults := s, faults;
    }

    method NextFault() returns (f: Fault)
      modifies `faults
      ensures f == Head(old(faults)) && faults == Tail(old(faults))
    {
      f := Head(faults);
      faults := Tail(faults);
    }

    /** A read that answers with a fact no call changes; known is false when the object does not exist. */
    method Look<T>(value: T, known: bool) returns (r: Reply<T>)
      modifies `faults
      ensures faults == Tail(old(faults))
      ensures r == if Head(old(faults)) == Clean && known then Answer(value) else CallError
    {
      var f := NextFault();
      r := if f == Clean && known then Answer(value) else CallError;
    }

    /** The fileset's link path; missing says that the call failed because there is no such fileset. */
    method ListFileset(k: FsetKey) returns (r: Reply<string>, missing: bool)
      modifies `faults
      ensures faults == Tail(old(faults))
      ensures r == if Head(old(faults)) == Clean && k in s.filesets then Answer(s.filesets[k].link) else CallError
      ensures missing <==> Head(old(faults)) == Clean && k !in s.filesets
    {
      var f := NextFault();
      missing := f == Clean && k !in s.filesets;
      r := if f == Clean && k in s.filesets then Answer(s.filesets[k].link) else CallError;
    }

    method ListFilesetQuota(k: FsetKey) returns (r: Reply<string>)
      modifies `faults
      ensures faults == Tail(old(faults))
      ensures r == if Head(old(faults)) == Clean then Answer(ListQuota(s, k)) else CallError
    {
      r := Look(ListQuota(s, k), true);
    }

    method CheckIfFileDirPresent(l: Loc) returns (r: Reply<bool>)
      modifies `faults
      ensures faults == Tail(old(faults))
      ensures r == if Head(old(faults)) == Clean then Answer(Present(s, l)) else CallError
    {
      r := Look(Present(s, l), true);
    }

    /** The shape of every mutating call; ok is what the caller is told. */
    method Change(e: Effect) returns (ok: bool)
      modifies this
      ensures faults == Tail(old(faults))
      ensures s == if Head(old(faults)) == Lost then old(s) else e.state
      ensures ok <==> Head(old(faults)) == Clean && e.ok
    {
      var f := NextFault();
      if f != Lost {
        s := e.state;
      }
      ok := f == Clean && e.ok;
    }
  }

  /**
   CreateSymlinkPath: the two paths start-up derives from the primary fileset's link path, which it returns in any case,
   and the directory that links need, which is there if the call reports success.
   */
  method CreateSymlinkPath(gui: Gui, device: string, fsmount: string, fsetlinkpath: string)
    returns (symlinkpath: string, dirpath: string, ok: bool)
    modifies gui
    ensures symlinkpath == SymlinkAbs(fsetlinkpath) && dirpath == SymlinkRel(fsetlinkpath, fsmount)
    ensures ok ==> Present(gui.s, LocOf(device, dirpath))
    ensures gui.s ==
      if Head(old(gui.faults)) == Lost then old(gui.s) else MakeDirectory(old(gui.s), LocOf(device, dirpath))
    ensures ok <==> Head(old(gui.faults)) == Clean
  {
    var link := fsetlinkpath;
    dirpath := ReplaceFirst(link, fsmount, "");
    dirpath := Trim(dirpath);
    link := TrimSuffixSlash(link);
    dirpath := dirpath + "/.volumes";
    symlinkpath := link + "/.volumes";
    ok := gui.Change(Effect(MakeDirectory(gui.s, LocOf(device, dirpath)), true));
  }

  /** What a request asks of one capability: a block volume, or an access mode of many readers and no writer. */
  datatype Capability = Capability(block: bool, readOnlyMany: bool)

  predicate Usable(c: Capability) {
    !c.block && !c.readOnlyMany
  }

  /**
   The checks of CreateVolume that come before anything else: the first capability that cannot be had decides. A request
   without capabilities arrives as one whose list is empty.
   */
  method CheckRequest(name: string, capabilities: seq<Capability>) returns (err: Option<Error>)
    ensures err.None? <==>
      name != "" && capabilities != [] && forall i :: 0 <= i < |capabilities| ==> Usable(capabilities[i])
    ensures (exists i :: 0 <= i < |capabilities| && capabilities[i].block) ==> err.Some?
    ensures (exists i :: 0 <= i < |capabilities| && capabilities[i].readOnlyMany) ==> err.Some?
    ensures err == Some(NameMissing) <==> name == ""
    ensures err == Some(CapabilitiesMissing) <==> name != "" && capabilities == []
    ensures err.Some? && name != "" && capabilities != [] ==>
      exists i :: 0 <= i < |capabilities| && !Usable(capabilities[i]) &&
        (forall j :: 0 <= j < i ==> Usable(capabilities[j])) &&
        err.value == if capabilities[i].block then BlockUnsupported else ReadOnlyUnsupported
  {
    if name == "" {
      return Some(NameMissing);
    }
    if capabilities == [] {
      return Some(CapabilitiesMissing);
    }
    for i := 0 to |capabilities|
      invariant forall j :: 0 <= j < i ==> Usable(capabilities[j])
    {
      if capabilities[i].block {
        return Some(BlockUnsupported);
      }
      if capabilities[i].readOnlyMany {
        return Some(ReadOnlyUnsupported);
      }
    }
    return None;
  }

  class ScaleControllerServer {
    const d: Driver
    const gui: Gui
    var reqmap: map<string, UInt64>

    constructor (d: Driver, gui: Gui)
      ensures this.d == d && this.gui == gui && reqmap == map[]
    {
      this.d, this.gui, reqmap := d, gui, map[];
    }

    /** IfSameVolReqInProcess: a name in process is refused, with another error when the size differs. */
    method IfSameVolReqInProcess(v: Volume) returns (r: Option<Error>)
      ensures r == Refusal(reqmap, v)
    {
      if v.name in reqmap {
        if reqmap[v.name] == v.size {
          return Some(AlreadyInProcess);
        }
        return Some(SizeDiffers);
      }
      return None;
    }

    method SetQuota(v: Volume, ghost link: string) returns (err: Option<Error>)
      modifies gui
      ensures BodyRun(v, ReadQuota(link), old(gui.s), old(gui.faults)) ==
              if err.Some? then Ending(Failed(err.value), gui.s, gui.faults)
              else BodyRun(v, AtTarget(v, link), gui.s, gui.faults)
    {
      ghost var s0, faults0 := gui.s, gui.faults;
      var quota := gui.ListFilesetQuota(Key(v));
      if quota.CallError? {
        assert BodyRun(v, ReadQuota(link), s0, faults0) == BodyRun(v, BROKEN, gui.s, gui.faults);
        return Some(CallFailed);
      }
      assert BodyRun(v, ReadQuota(link), s0, faults0) ==
        BodyRun(v, AfterQuota(v, link, quota.value), gui.s, gui.faults);
      err := QuotaDecision(v, link, quota.value);
    }

    /** What setQuota does once it has read a printed limit. */
    method QuotaDecision(v: Volume, ghost link: string, quota: string) returns (err: Option<Error>)
      requires Listed(quota)
      modifies gui
      ensures BodyRun(v, AfterQuota(v, link, quota), old(gui.s), old(gui.faults)) ==
              if err.Some? then Ending(Failed(err.value), gui.s, gui.faults)
              else BodyRun(v, AtTarget(v, link), gui.s, gui.faults)
    {
      var filesetQuotaBytes;
      filesetQuotaBytes, err := QuotaBytes(quota);
      if err.Some? {
        return;
      }
      if filesetQuotaBytes != v.size && filesetQuotaBytes != 0 {
        return Some(QuotaMismatch);
      }
      if filesetQuotaBytes == 0 {
        ghost var s0, faults0 := gui.s, gui.faults;
        var ok := gui.Change(SetFilesetQuota(gui.s, Key(v), FormatUint(v.size)));
        assert BodyRun(v, WriteQuota(link), s0, faults0) ==
          BodyRun(v, if ok then AtTarget(v, link) else BROKEN, gui.s, gui.faults);
        if !ok {
          return Some(CallFailed);
        }
      }
      return None;
    }

    /** The bytes of a listed limit; an error text with the words for a missing number means that no quota is set. */
    method QuotaBytes(quota: string) returns (n: nat, err: Option<Error>)
      requires Listed(quota)
      ensures err ==
        if ParseSize(quota).BadSize? && ParseSize(quota).error != InvalidNumber then Some(QuotaUnreadable) else None
      ensures n == if ParseSize(quota).Bytes? then ParseSize(quota).value else 0
    {
      ListedErrors(quota);
      var parsed := ConvertToBytes(quota);
      n, err := 0, None;
      match parsed {
        case Bytes(value) => n := value;
        case BadSize(e) =>
          if !SaysNoNumber(quota, e) {
            err := Some(QuotaUnreadable);
          }
      }
    }

    method CreateDirectory(v: Volume, target: string) returns (err: Option<Error>)
      modifies gui
      ensures BodyRun(v, FindDir(target), old(gui.s), old(gui.faults)) ==
              if err.Some? then Ending(Failed(err.value), gui.s, gui.faults)
              else BodyRun(v, FindSlnk(target), gui.s, gui.faults)
    {
      ghost var s0, faults0 := gui.s, gui.faults;
      var dirExists := gui.CheckIfFileDirPresent(DataLoc(v, target));
      if dirExists.CallError? {
        assert BodyRun(v, FindDir(target), s0, faults0) == BodyRun(v, BROKEN, gui.s, gui.faults);
        return Some(CallFailed);
      }
      if !dirExists.value {
        assert BodyRun(v, FindDir(target), s0, faults0) == BodyRun(v, MakeDir(target), gui.s, gui.faults);
        ghost var s1, faults1 := gui.s, gui.faults;
        var ok := gui.Change(Effect(MakeDirectory(gui.s, DataLoc(v, target)), true));
        assert BodyRun(v, MakeDir(target), s1, faults1) ==
          BodyRun(v, if ok then FindSlnk(target) else BROKEN, gui.s, gui.faults);
        if !ok {
          return Some(CallFailed);
        }
      }
      return None;
    }

    method CreateSoftlink(v: Volume, target: string) returns (err: Option<Error>)
      modifies gui
      ensures BodyRun(v, FindSlnk(target), old(gui.s), old(gui.faults)) ==
              Ending(if err.Some? then Failed(err.value) else Created(v.id), gui.s, gui.faults)
    {
      ghost var s0, faults0 := gui.s, gui.faults;
      var symLinkExists := gui.CheckIfFileDirPresent(v.slnk);
      if symLinkExists.CallError? {
        assert BodyRun(v, FindSlnk(target), s0, faults0) == BodyRun(v, BROKEN, gui.s, gui.faults);
        return Some(CallFailed);
      }
      if !symLinkExists.value {
        assert BodyRun(v, FindSlnk(target), s0, faults0) == BodyRun(v, MakeSlnk(target), gui.s, gui.faults);
        ghost var s1, faults1 := gui.s, gui.faults;
        var ok := gui.Change(Effect(CreateSymLink(gui.s, v.slnk, LinkTo(v, target)), true));
        assert BodyRun(v, MakeSlnk(target), s1, faults1) ==
          BodyRun(v, if ok then Done(Created(v.id)) else BROKEN, gui.s, gui.faults);
        if !ok {
          return Some(CallFailed);
        }
      }
      return None;
    }

    /** The part of createFilesetBasedVol that finds the fileset, or makes it and finds it. */
    method FindOrMakeFileset(v: Volume) returns (link: string, err: Option<Error>)
      modifies gui
      ensures BodyRun(v, FindFileset, old(gui.s), old(gui.faults)) ==
              if err.Some? then Ending(Failed(err.value), gui.s, gui.faults)
              else BodyRun(v, AfterFound(v, link), gui.s, gui.faults)
    {
      ghost var s0, faults0 := gui.s, gui.faults;
      var k := Key(v);
      var filesetInfo, missing := gui.ListFileset(k);
      if filesetInfo.Answer? {
        assert BodyRun(v, FindFileset, s0, faults0) == BodyRun(v, AfterFound(v, filesetInfo.value), gui.s, gui.faults);
        return filesetInfo.value, None;
      }
      if !missing {
        assert BodyRun(v, FindFileset, s0, faults0) == BodyRun(v, BROKEN, gui.s, gui.faults);
        return "", Some(CallFailed);
      }
      assert BodyRun(v, FindFileset, s0, faults0) == BodyRun(v, MakeFileset, gui.s, gui.faults);
      var ok := gui.Change(CreateFileset(gui.s, k, v.autoLink, v.junction, v.info.mount));
      assert BodyRun(v, FindFileset, s0, faults0) == BodyRun(v, if ok then FindAgain else BROKEN, gui.s, gui.faults);
      if !ok {
        return "", Some(CallFailed);
      }
      ghost var s1, faults1 := gui.s, gui.faults;
      filesetInfo, missing := gui.ListFileset(k);
      if filesetInfo.CallError? {
        assert BodyRun(v, FindAgain, s1, faults1) == BodyRun(v, BROKEN, gui.s, gui.faults);
        return "", Some(CallFailed);
      }
      assert BodyRun(v, FindAgain, s1, faults1) == BodyRun(v, AfterFound(v, filesetInfo.value), gui.s, gui.faults);
      return filesetInfo.value, None;
    }

    /** The part that links a fileset found unlinked and reads its path again. */
    method LinkIfNeeded(v: Volume, found: string) returns (link: string, err: Option<Error>)
      modifies gui
      ensures BodyRun(v, AfterFound(v, found), old(gui.s), old(gui.faults)) ==
              if err.Some? then Ending(Failed(err.value), gui.s, gui.faults)
              else BodyRun(v, AfterLink(v, link), gui.s, gui.faults)
    {
      link, err := found, None;
      if found == "" || found == UNLINKED {
        ghost var s0, faults0 := gui.s, gui.faults;
        var ok := gui.Change(LinkFileset(gui.s, Key(v), v.junction, v.info.mount));
        assert BodyRun(v, LinkIt, s0, faults0) == BodyRun(v, if ok then FindLinked else BROKEN, gui.s, gui.faults);
        if !ok {
          return "", Some(CallFailed);
        }
        ghost var s1, faults1 := gui.s, gui.faults;
        var filesetInfo, missing := gui.ListFileset(Key(v));
        if filesetInfo.CallError? {
          assert BodyRun(v, FindLinked, s1, faults1) == BodyRun(v, BROKEN, gui.s, gui.faults);
          return "", Some(CallFailed);
        }
        link := filesetInfo.value;
        assert BodyRun(v, FindLinked, s1, faults1) == BodyRun(v, AfterLink(v, link), gui.s, gui.faults);
      }
    }

    method CreateFilesetBasedVol(v: Volume) returns (target: string, err: Option<Error>)
      modifies gui
      ensures BodyRun(v, ReadOwnerFs, old(gui.s), old(gui.faults)) ==
              if err.Some? then Ending(Failed(err.value), gui.s, gui.faults)
              else BodyRun(v, FindSlnk(target), gui.s, gui.faults)
    {
      target := "";
      var fsDetails := gui.Look(v.info, v.fsKnown);
      if fsDetails.CallError? {
        return "", Some(CallFailed);
      }
      if v.info.isRemote {
        return "", Some(RemoteFilesystem);
      }
      if v.foreign && !v.info.mounted {
        return "", Some(OwnerFsNotMounted);
      }
      if v.size != 0 {
        var enabled := gui.Look((), v.info.quotaOn);
        if enabled.CallError? {
          return "", Some(CallFailed);
        }
      }
      var link;
      link, err := FindOrMakeFileset(v);
      if err.Some? {
        return;
      }
      link, err := LinkIfNeeded(v, link);
      if err.Some? {
        return;
      }
      if v.size != 0 {
        err := SetQuota(v, link);
        if err.Some? {
          return;
        }
      }
      match GetTargetPath(link, v.info.mount, v.name) {
        case MissingDetails => return "", Some(NoTarget);
        case Path(path) => target := path;
      }
      err := CreateDirectory(v, target);
    }

    method CreateLWVol(v: Volume) returns (target: string, err: Option<Error>)
      modifies gui
      ensures BodyRun(v, FindBase, old(gui.s), old(gui.faults)) ==
              if err.Some? then Ending(Failed(err.value), gui.s, gui.faults)
              else BodyRun(v, FindSlnk(target), gui.s, gui.faults)
    {
      target := v.dirBase + "/" + v.name;
      var dirExists := gui.CheckIfFileDirPresent(LocOf(v.info.device, v.dirBase));
      if dirExists.CallError? {
        return "", Some(CallFailed);
      }
      if !dirExists.value {
        return "", Some(NoDirBase);
      }
      err := CreateDirectory(v, target);
    }

    /** The primary fileset must be linked and its filesystem mounted. */
    method PrimaryChecks(q: Request) returns (err: Option<Error>)
      modifies gui`faults
      ensures FrontRun(d, q, CheckPrimary, gui.s, old(gui.faults)) ==
              if err.Some? then Ending(Failed(err.value), gui.s, gui.faults)
              else FrontRun(d, q, ReadVolumeFs, gui.s, gui.faults)
    {
      var linked := gui.Look(d.primaryLinked, true);
      if linked.CallError? {
        return Some(CallFailed);
      }
      if !linked.value {
        return Some(PrimaryUnlinked);
      }
      if d.primaryFs != q.backendFs {
        ghost var faults1 := gui.faults;
        assert FrontRun(d, q, CheckPrimary, gui.s, old(gui.faults)) == FrontRun(d, q, CheckMount, gui.s, faults1);
        var isPfsMounted := gui.Look(Info(d, d.primaryCid, d.primaryFs).mounted, true);
        if isPfsMounted.CallError? {
          return Some(CallFailed);
        }
        if !isPfsMounted.value {
          return Some(PrimaryNotMounted);
        }
      }
      return None;
    }

    /** The checks before admission: they change nothing, and either fail or leave the request to be admitted. */
    method PreChecks(q: Request) returns (err: Option<Error>)
      modifies gui`faults
      ensures FrontRun(d, q, CheckPrimary, gui.s, old(gui.faults)) ==
              if err.Some? then Ending(Failed(err.value), gui.s, gui.faults)
              else FrontRun(d, q, Admission, gui.s, gui.faults)
    {
      err := PrimaryChecks(q);
      if err.Some? {
        return;
      }
      var volFsInfo := gui.Look(Info(d, d.primaryCid, q.backendFs), FsKey(d.primaryCid, q.backendFs) in d.filesystems);
      if volFsInfo.CallError? {
        return Some(CallFailed);
      }
      if !volFsInfo.value.mounted {
        return Some(VolumeFsNotMounted);
      }
      if q.isFileset && q.clusterId == "" && volFsInfo.value.isRemote {
        return Some(ClusterIdNeeded);
      }
      if q.isFileset && ClusterId(d, q) !in d.connmap {
        return Some(NoConnector);
      }
      return None;
    }

    /** All that follows admission. */
    method Provision(v: Volume) returns (outcome: Outcome)
      modifies gui
      ensures BodyRun(v, BodyStart(v), old(gui.s), old(gui.faults)) == Ending(outcome, gui.s, gui.faults)
    {
      var targetPath, err;
      if v.isFileset {
        targetPath, err := CreateFilesetBasedVol(v);
      } else {
        targetPath, err := CreateLWVol(v);
      }
      if err.None? {
        err := CreateSoftlink(v, targetPath);
      }
      outcome := if err.Some? then Failed(err.value) else Created(v.id);
    }

    /** Admission, the volume's work and the deferred removal of its request map entry. */
    method ProvisionOnce(v: Volume) returns (outcome: Outcome)
      modifies this`reqmap, gui
      ensures reqmap == old(reqmap)
      ensures v.name !in old(reqmap) ==>
        BodyRun(v, BodyStart(v), old(gui.s), old(gui.faults)) == Ending(outcome, gui.s, gui.faults)
      ensures v.name in old(reqmap) ==> gui.s == old(gui.s) && gui.faults == old(gui.faults)
      ensures v.name in old(reqmap) ==>
        outcome == Failed(if reqmap[v.name] == v.size then AlreadyInProcess else SizeDiffers)
    {
      var err := IfSameVolReqInProcess(v);
      if err.Some? {
        return Failed(err.value);
      }
      reqmap := reqmap[v.name := v.size];
      outcome := Provision(v);
      reqmap := reqmap - {v.name};
    }

    /**
     CreateVolume refuses what it cannot serve at all without a call; otherwise it does what the step machine says,
     entry by entry of the fault script. It leaves the request map as it found it; a name in process is refused
     without touching the backend.
     */
    method CreateVolume(q: Request, capabilities: seq<Capability>) returns (outcome: Outcome)
      modifies this`reqmap, gui
      ensures reqmap == old(reqmap)
      ensures var usable := q.name != "" && capabilities != [] &&
        forall i :: 0 <= i < |capabilities| ==> Usable(capabilities[i]);
        && (!usable ==> outcome.Failed? && gui.s == old(gui.s) && gui.faults == old(gui.faults))
        && (usable && q.name !in old(reqmap) ==>
             Ending(outcome, gui.s, gui.faults) == Create.CreateVolume(d, q, old(gui.s), old(gui.faults)))
        && (q.name in old(reqmap) ==> outcome.Failed? && gui.s == old(gui.s))
    {
      var unfit := CheckRequest(q.name, capabilities);
      if unfit.Some? {
        return Failed(unfit.value);
      }
      var err := PreChecks(q);
      if err.Some? {
        return Failed(err.value);
      }
      outcome := ProvisionOnce(Resolve(d, q));
    }

    /** The fileset's name, looked up by its id for the older form of identifier. */
    method FilesetName(x: Delete.Doomed) returns (name: Reply<string>)
      requires x.isFilesetBased
      modifies gui`faults
      ensures Delete.DelRun(x, true, Delete.AfterDevice(x), gui.s, old(gui.faults)) ==
              if name.CallError? then Delete.DelEnding(false, gui.s, gui.faults)
              else Delete.DelRun(x, true, Delete.AfterName(x, name.value), gui.s, gui.faults)
    {
      if x.fsetName != "" {
        return Answer(x.fsetName);
      }
      name := gui.Look(Delete.NameFromId(x, gui.s), true);
      assert Delete.DelRun(x, true, Delete.FindName, gui.s, old(gui.faults)) ==
        Delete.DelRun(x, true,
          if name.CallError? then Delete.NotDeleted else Delete.AfterName(x, name.value), gui.s, gui.faults);
    }

    /** Removes what holds the data; without a fileset of that name nothing is removed. */
    method RemoveData(x: Delete.Doomed) returns (ok: bool)
      modifies gui
      ensures Delete.DelRun(x, true, Delete.AfterDevice(x), old(gui.s), old(gui.faults)) ==
              Delete.DelRun(x, true, if ok then Delete.RemoveSlnk else Delete.NotDeleted, gui.s, gui.faults)
    {
      if x.isFilesetBased {
        var filesetName := FilesetName(x);
        if filesetName.CallError? {
          return false;
        }
        ok := true;
        if filesetName.value != "" {
          var pvName := Base(x.slnkRel);
          if pvName == filesetName.value {
            ok := gui.Change(Effect(DeleteFileset(gui.s, FsetKey(x.device, filesetName.value)), true));
          }
        }
      } else {
        ok := gui.Change(DeleteDirectory(gui.s, x.slnk));
      }
    }

    /** DeleteVolume does what its step machine says. */
    method DeleteVolume(volumeId: string) returns (deleted: bool)
      modifies gui
      ensures Delete.DelEnding(deleted, gui.s, gui.faults) ==
              Delete.DeleteVolume(d, volumeId, old(gui.s), old(gui.faults))
    {
      var parsed := VolumeId.GetVolIdMembers(volumeId);
      if volumeId == "" || parsed.Invalid? {
        return volumeId != "";
      }
      var m := parsed.members;
      if m.clusterId !in d.connmap {
        return false;
      }
      var x := Delete.DoomedBy(d, m);
      deleted := Remove(x, Delete.FsKnown(d, m));
    }

    method Remove(x: Delete.Doomed, known: bool) returns (deleted: bool)
      modifies gui
      ensures Delete.DelEnding(deleted, gui.s, gui.faults) ==
              Delete.DelRun(x, known, Delete.FindFsName, old(gui.s), old(gui.faults))
    {
      ghost var s0, faults0 := gui.s, gui.faults;
      var fsName := gui.Look((), known);
      if fsName.CallError? {
        return false;
      }
      assert Delete.DelRun(x, known, Delete.FindFsName, s0, faults0) ==
        Delete.DelRun(x, true, Delete.FindDevice, gui.s, gui.faults);
      ghost var s1, faults1 := gui.s, gui.faults;
      var mountInfo := gui.Look(x.device, true);
      if mountInfo.CallError? {
        assert Delete.DelRun(x, true, Delete.FindDevice, s1, faults1) ==
          Delete.DelRun(x, true, Delete.NotDeleted, gui.s, gui.faults);
        return false;
      }
      assert Delete.DelRun(x, true, Delete.FindDevice, s1, faults1) ==
        Delete.DelRun(x, true, Delete.AfterDevice(x), gui.s, gui.faults);
      var ok := RemoveData(x);
      if !ok {
        return false;
      }
      deleted := gui.Change(Effect(DeleteSymLnk(gui.s, x.slnk), true));
    }
  }
}
