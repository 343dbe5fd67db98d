/** CreateVolume as a step machine: one connector call per step, every intermediate state visible to others. */
module Create {
  import opened Strings
  import opened Numbers
  import opened Paths
  import opened Backend
  import opened Wrappers
  import VolumeId

  // ---------- the driver's fixed surroundings ----------

  datatype FsKey = FsKey(cluster: string, fs: string)

  /** What a cluster says of a filesystem, and which physical filesystem that is. */
  datatype FsInfo = FsInfo(uuid: string, mount: string, remoteDevice: string, isRemote: bool, mounted: bool,
                           quotaOn: bool, device: string)

  /**
   Start-up results and backend facts that no request changes. connmap takes a cluster id to the cluster its
   connector talks to; uuidName and filesetById answer the two look-ups delete makes.
   */
  datatype Driver = Driver(
    primaryCid: string, primaryFs: string, primaryMount: string, primaryLink: string, primaryLinked: bool,
    connmap: map<string, string>, filesystems: map<FsKey, FsInfo>,
    uuidName: map<string, string>, filesetById: map<FsetKey, string>, autoLink: bool)

  datatype Request = Request(name: string, size: UInt64, backendFs: string, isFileset: bool, clusterId: string,
                             dirBase: string)

  /**
   What CreateVolume has resolved when it starts to act: info is the filesystem on the cluster whose connector does the
   work, localDevice the one the primary cluster knows by the requested name; slnk is where the symbolic link goes.
   */
  datatype Volume = Volume(
    name: string, size: UInt64, isFileset: bool, fsKnown: bool, info: FsInfo, foreign: bool, localDevice: string,
    junction: string, dirBase: string, slnk: Loc, id: string, autoLink: bool)

  function LastDevice(remoteDevice: string): string {
    var parts := Split(remoteDevice, ':');
    parts[|parts| - 1]
  }

  function Info(d: Driver, cluster: string, fs: string): FsInfo {
    if FsKey(cluster, fs) in d.filesystems then d.filesystems[FsKey(cluster, fs)]
      else FsInfo("", "", "", false, false, false, "")
  }

  /** The cluster id a request ends up with, and the filesystem's name on that cluster. */
  function ClusterId(d: Driver, q: Request): string {
    if q.isFileset && q.clusterId != "" then q.clusterId else d.primaryCid
  }

  function OwnerOf(d: Driver, q: Request): string {
    if q.isFileset && ClusterId(d, q) in d.connmap then d.connmap[ClusterId(d, q)] else d.primaryCid
  }

  function FsOf(d: Driver, q: Request): string {
    if q.isFileset then LastDevice(Info(d, d.primaryCid, q.backendFs).remoteDevice) else q.backendFs
  }

  function SlnkRelPath(d: Driver, name: string): string {
    SymlinkRel(d.primaryLink, d.primaryMount) + "/" + name
  }

  /** generateVolID, with the UUID read from the primary cluster. */
  function VolId(d: Driver, q: Request): string {
    VolumeId.Generate(ClusterId(d, q), Info(d, d.primaryCid, q.backendFs).uuid, q.name,
                      SymlinkAbs(d.primaryLink) + "/" + q.name, q.isFileset)
  }

  function Resolve(d: Driver, q: Request): Volume {
    var info := Info(d, OwnerOf(d, q), FsOf(d, q));
    Volume(q.name, q.size, q.isFileset, FsKey(OwnerOf(d, q), FsOf(d, q)) in d.filesystems, info,
           d.primaryCid != ClusterId(d, q), Info(d, d.primaryCid, q.backendFs).device, info.mount + "/" + q.name,
           q.dirBase, LocOf(Info(d, d.primaryCid, d.primaryFs).device, SlnkRelPath(d, q.name)), VolId(d, q), d.autoLink)
  }

  function Key(v: Volume): FsetKey {
    FsetKey(v.info.device, v.name)
  }

  /** The volume's directory below its filesystem, for a fileset linked at the given path. */
  function DataDir(v: Volume, link: string): string {
    if v.isFileset then DataPath(link, v.info.mount, v.name) else v.dirBase + "/" + v.name
  }

  function DataLoc(v: Volume, target: string): Loc {
    LocOf(v.info.device, target)
  }

  /** Links name their target by the filesystem's name on the primary cluster. */
  function LinkTo(v: Volume, target: string): Loc {
    LocOf(v.localDevice, target)
  }

  // ---------- program points ----------

  datatype Error =
    | CallFailed | PrimaryUnlinked | PrimaryNotMounted | VolumeFsNotMounted | ClusterIdNeeded | NoConnector
    | RemoteFilesystem | OwnerFsNotMounted | QuotaUnreadable | QuotaMismatch | NoTarget | NoDirBase
    | AlreadyInProcess | SizeDiffers
    | NameMissing | CapabilitiesMissing | BlockUnsupported | ReadOnlyUnsupported

  datatype Outcome = Created(volumeId: string) | Failed(error: Error)

  datatype Pc =
    | CheckPrimary | CheckMount | ReadVolumeFs | Admission
    | ReadOwnerFs | CheckQuotaOn | FindFileset | MakeFileset | FindAgain | LinkIt | FindLinked
    | ReadQuota(link: string) | WriteQuota(link: string)
    | FindBase | FindDir(target: string) | MakeDir(target: string) | FindSlnk(target: string) | MakeSlnk(target: string)
    | Done(outcome: Outcome)

  /** Where to go and what the backend has become. */
  datatype Turn = Turn(pc: Pc, state: State)

  function Rank(pc: Pc): nat {
    match pc
    case CheckPrimary => 18 case CheckMount => 17 case ReadVolumeFs => 16 case Admission => 15
    case ReadOwnerFs => 14 case CheckQuotaOn => 13 case FindFileset => 12 case MakeFileset => 11
    case FindAgain => 10 case LinkIt => 9 case FindLinked => 8 case ReadQuota(_) => 7 case WriteQuota(_) => 6
    case FindBase => 6 case FindDir(_) => 5 case MakeDir(_) => 4 case FindSlnk(_) => 3 case MakeSlnk(_) => 2
    case Done(_) => 0
  }

  predicate BeforeAdmission(pc: Pc) {
    pc.CheckPrimary? || pc.CheckMount? || pc.ReadVolumeFs? || pc.Admission?
  }

  /** The request holds its reqmap entry. */
  predicate Admitted(pc: Pc) {
    !BeforeAdmission(pc) && !pc.Done?
  }

  const BROKEN: Pc := Done(Failed(CallFailed))

  // ---------- the steps ----------

  /** A read that the fault lets through goes on; otherwise the request fails. */
  function Read(s: State, f: Fault, next: Pc): Turn {
    Turn(if f == Clean then next else BROKEN, s)
  }

  function Write(s: State, e: Effect, f: Fault, next: Pc): Turn {
    match f
    case Clean => Turn(if e.ok then next else BROKEN, e.state)
    case Lost => Turn(BROKEN, s)
    case Late => Turn(BROKEN, e.state)
  }

  /** CreateVolume up to admission only reads. */
  function FrontNext(d: Driver, q: Request, pc: Pc): (next: Pc)
    requires pc.CheckPrimary? || pc.CheckMount? || pc.ReadVolumeFs?
    ensures Rank(next) < Rank(pc) && (BeforeAdmission(next) || (next.Done? && next.outcome.Failed?))
  {
    match pc
    case CheckPrimary =>
      if !d.primaryLinked then Done(Failed(PrimaryUnlinked))
      else if d.primaryFs != q.backendFs then CheckMount else ReadVolumeFs
    case CheckMount =>
      if !Info(d, d.primaryCid, d.primaryFs).mounted then Done(Failed(PrimaryNotMounted)) else ReadVolumeFs
    case ReadVolumeFs =>
      var info := Info(d, d.primaryCid, q.backendFs);
      if FsKey(d.primaryCid, q.backendFs) !in d.filesystems then BROKEN
      else if !info.mounted then Done(Failed(VolumeFsNotMounted))
      else if q.isFileset && q.clusterId == "" && info.isRemote then Done(Failed(ClusterIdNeeded))
      else if q.isFileset && ClusterId(d, q) !in d.connmap then Done(Failed(NoConnector))
      else Admission
  }

  function BodyStart(v: Volume): Pc {
    if v.isFileset then ReadOwnerFs else FindBase
  }

  function AtTarget(v: Volume, link: string): (next: Pc)
    ensures Rank(next) <= 5
  {
    match GetTargetPath(link, v.info.mount, v.name)
    case Path(t) => FindDir(t)
    case MissingDetails => Done(Failed(NoTarget))
  }

  function AfterLink(v: Volume, link: string): (next: Pc)
    ensures Rank(next) <= 7
  {
    if v.size != 0 then ReadQuota(link) else AtTarget(v, link)
  }

  function AfterFound(v: Volume, link: string): (next: Pc)
    ensures Rank(next) <= 9
  {
    if Linked(link) then AfterLink(v, link) else LinkIt
  }

  function AfterQuota(v: Volume, link: string, quota: string): (next: Pc)
    ensures Rank(next) <= 6
  {
    match ParseSize(quota)
    case Bytes(n) =>
      if n != v.size && n != 0 then Done(Failed(QuotaMismatch))
      else if n == 0 then WriteQuota(link) else AtTarget(v, link)
    case BadSize(e) =>
      // no number means that no quota is set
      if e == InvalidNumber then WriteQuota(link) else Done(Failed(QuotaUnreadable))
  }

  function AfterOwnerFs(v: Volume): (next: Pc)
    ensures Rank(next) <= 13
  {
    if !v.fsKnown then BROKEN
    else if v.info.isRemote then Done(Failed(RemoteFilesystem))
    else if v.foreign && !v.info.mounted then Done(Failed(OwnerFsNotMounted))
    else if v.size != 0 then CheckQuotaOn else FindFileset
  }

  /** The points of createFilesetBasedVol before its directory. */
  predicate OnFileset(pc: Pc) {
    pc.ReadOwnerFs? || pc.CheckQuotaOn? || pc.FindFileset? || pc.MakeFileset? || pc.FindAgain? || pc.LinkIt? ||
    pc.FindLinked? || pc.ReadQuota? || pc.WriteQuota?
  }

  predicate OnTree(pc: Pc) {
    pc.FindBase? || pc.FindDir? || pc.MakeDir? || pc.FindSlnk? || pc.MakeSlnk?
  }

  function FilesetStep(v: Volume, pc: Pc, s: State, f: Fault): (r: Turn)
    requires OnFileset(pc)
    ensures Rank(r.pc) < Rank(pc)
  {
    var k := Key(v);
    match pc
    case ReadOwnerFs => Read(s, f, AfterOwnerFs(v))
    case CheckQuotaOn => Read(s, f, if v.info.quotaOn then FindFileset else BROKEN)
    case FindFileset => Read(s, f, if k in s.filesets then AfterFound(v, s.filesets[k].link) else MakeFileset)
    case MakeFileset => Write(s, CreateFileset(s, k, v.autoLink, v.junction, v.info.mount), f, FindAgain)
    case FindAgain => Read(s, f, if k in s.filesets then AfterFound(v, s.filesets[k].link) else BROKEN)
    case LinkIt => Write(s, LinkFileset(s, k, v.junction, v.info.mount), f, FindLinked)
    case FindLinked => Read(s, f, if k in s.filesets then AfterLink(v, s.filesets[k].link) else BROKEN)
    case ReadQuota(link) => Read(s, f, AfterQuota(v, link, ListQuota(s, k)))
    case WriteQuota(link) => Write(s, SetFilesetQuota(s, k, FormatUint(v.size)), f, AtTarget(v, link))
  }

  /** createLWVol, createDirectory and createSoftlink. */
  function TreeStep(v: Volume, pc: Pc, s: State, f: Fault): (r: Turn)
    requires OnTree(pc)
    ensures Rank(r.pc) < Rank(pc)
  {
    match pc
    case FindBase =>
      Read(s, f, if Present(s, LocOf(v.info.device, v.dirBase)) then FindDir(v.dirBase + "/" + v.name)
                 else Done(Failed(NoDirBase)))
    case FindDir(t) => Read(s, f, if Present(s, DataLoc(v, t)) then FindSlnk(t) else MakeDir(t))
    case MakeDir(t) => Write(s, Effect(MakeDirectory(s, DataLoc(v, t)), true), f, FindSlnk(t))
    case FindSlnk(t) => Read(s, f, if Present(s, v.slnk) then Done(Created(v.id)) else MakeSlnk(t))
    case MakeSlnk(t) => Write(s, Effect(CreateSymLink(s, v.slnk, LinkTo(v, t)), true), f, Done(Created(v.id)))
  }

  function BodyStep(v: Volume, pc: Pc, s: State, f: Fault): (r: Turn)
    requires Admitted(pc)
    ensures Rank(r.pc) < Rank(pc) && (Admitted(r.pc) || r.pc.Done?)
  {
    if OnFileset(pc) then FilesetStep(v, pc, s, f) else TreeStep(v, pc, s, f)
  }

  // ---------- admission ----------

  /** The error with which a request is turned away while its name is in process. */
  function Refusal(reqmap: map<string, UInt64>, v: Volume): Option<Error> {
    if v.name !in reqmap then None else Some(if reqmap[v.name] == v.size then AlreadyInProcess else SizeDiffers)
  }

  // ---------- one attempt ----------

  datatype Ending = Ending(outcome: Outcome, state: State, faults: seq<Fault>)

  /** The fault of the next call; a used-up script means that nothing more goes wrong. */
  function Head(faults: seq<Fault>): Fault {
    if faults == [] then Clean else faults[0]
  }

  function Tail(faults: seq<Fault>): seq<Fault> {
    if faults == [] then [] else faults[1..]
  }

  /** From admission to the end of one attempt under a script of faults. */
  function BodyRun(v: Volume, pc: Pc, s: State, faults: seq<Fault>): Ending
    requires Admitted(pc) || pc.Done?
    decreases Rank(pc)
  {
    if pc.Done? then Ending(pc.outcome, s, faults)
    else
      var turn := BodyStep(v, pc, s, Head(faults));
      BodyRun(v, turn.pc, turn.state, Tail(faults))
  }

  /** Up to admission, which makes no call, and from there through the body. */
  function FrontRun(d: Driver, q: Request, pc: Pc, s: State, faults: seq<Fault>): Ending
    requires BeforeAdmission(pc) || pc.Done?
    decreases Rank(pc)
  {
    if pc.Done? then Ending(pc.outcome, s, faults)
    else if pc == Admission then BodyRun(Resolve(d, q), BodyStart(Resolve(d, q)), s, faults)
    else FrontRun(d, q, Read(s, Head(faults), FrontNext(d, q, pc)).pc, s, Tail(faults))
  }

  /** One whole attempt. */
  function CreateVolume(d: Driver, q: Request, s: State, faults: seq<Fault>): Ending {
    FrontRun(d, q, CheckPrimary, s, faults)
  }
}
