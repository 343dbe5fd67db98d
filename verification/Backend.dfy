/**
 The storage the driver does not control: filesets, directories and symbolic links, and what each connector call
 does to them. A call may run and report (Clean), fail without effect (Lost), or take effect and still report
 failure (Late).
 */
module Backend {
  import opened Numbers
  import opened Paths

  /**
   A place: one physical filesystem, whatever names clusters have for it, and the components of a path in it, however
   the path is written.
   */
  datatype Loc = Loc(device: string, path: seq<string>)

  /** Filesets are known by name on their filesystem. */
  datatype FsetKey = FsetKey(device: string, name: string)

  function LocOf(device: string, path: string): Loc {
    Loc(device, Resolved(path))
  }

  /** The block limit is the signed 64-bit count of KiB the quota listing reports. */
  type Limit = n: int | -INT63 <= n < INT63

  /** The link path as it is reported, and the place it stands for. */
  datatype Fileset = Fileset(link: string, root: seq<string>, limitKiB: Limit)

  datatype State = State(filesets: map<FsetKey, Fileset>, dirs: set<Loc>, symlinks: map<Loc, Loc>)

  datatype Fault = Clean | Lost | Late

  /** A mutating call's effect and whether the backend accepted it. */
  datatype Effect = Effect(state: State, ok: bool)

  // ---------- what is there ----------

  /** CheckIfFileDirPresent: any object answers, directory or link. */
  predicate Present(s: State, l: Loc) {
    l in s.dirs || l in s.symlinks
  }

  predicate Linked(link: string) {
    link != "" && link != UNLINKED
  }

  /** Another fileset of the filesystem is linked at or below the place. */
  predicate Conflict(s: State, k: FsetKey, place: seq<string>) {
    exists o :: o in s.filesets && o != k && o.device == k.device && Linked(s.filesets[o].link) &&
      place <= s.filesets[o].root
  }

  /** A junction has to be below the mount point, where nothing is yet. */
  predicate CanLink(s: State, k: FsetKey, junction: string, mount: string) {
    var place := BelowMount(junction, mount);
    Resolved(mount) <= Resolved(junction) && !Present(s, Loc(k.device, place)) && !Conflict(s, k, place)
  }

  // ---------- what the calls do ----------

  /** The limit stored for a quota string: bytes, rounded up to whole KiB. */
  function StoredKiB(quota: string): Limit {
    match ParseSize(quota)
    case Bytes(n) => if n / KIB + 1 < INT63 then (n + KIB - 1) / KIB else 0
    case BadSize(_) => 0
  }

  function Kib(size: nat): nat {
    (size + KIB - 1) / KIB
  }

  lemma StoredPrinted(size: nat)
    requires size < UINT64
    ensures StoredKiB(FormatUint(size)) == Kib(size)
    ensures Kib(size) <= 0x40_0000_0000_0000
  {
    DecimalOfFormat(size);
    ParseSizeMeaning(FormatUint(size), "");
    assert FormatUint(size) + "" == FormatUint(size);
  }

  /** The fileset linked at the junction, which becomes a directory. */
  function Attach(s: State, k: FsetKey, limitKiB: Limit, junction: string, mount: string): State {
    var root := BelowMount(junction, mount);
    s.(filesets := s.filesets[k := Fileset(junction, root, limitKiB)], dirs := s.dirs + {Loc(k.device, root)})
  }

  /** An existing fileset is tolerated; a new one is linked at once only on backends that do so. */
  function CreateFileset(s: State, k: FsetKey, autoLink: bool, junction: string, mount: string): Effect {
    if k in s.filesets then Effect(s, true)
    else if autoLink && Linked(junction) && CanLink(s, k, junction, mount) then
      Effect(Attach(s, k, 0, junction, mount), true)
    else Effect(s.(filesets := s.filesets[k := Fileset(UNLINKED, [], 0)]), true)
  }

  function LinkFileset(s: State, k: FsetKey, junction: string, mount: string): Effect {
    if k !in s.filesets || Linked(s.filesets[k].link) || !CanLink(s, k, junction, mount) then Effect(s, false)
    else Effect(Attach(s, k, s.filesets[k].limitKiB, junction, mount), true)
  }

  function SetFilesetQuota(s: State, k: FsetKey, quota: string): Effect {
    if k !in s.filesets then Effect(s, false)
    else Effect(s.(filesets := s.filesets[k := s.filesets[k].(limitKiB := StoredKiB(quota))]), true)
  }

  function MakeDirectory(s: State, l: Loc): State {
    if Present(s, l) then s else s.(dirs := s.dirs + {l})
  }

  function CreateSymLink(s: State, l: Loc, target: Loc): State {
    if Present(s, l) then s else s.(symlinks := s.symlinks[l := target])
  }

  /** The object is the root of a tree, or inside it. */
  predicate Within(l: Loc, root: Loc) {
    l.device == root.device && root.path <= l.path
  }

  /** A tree goes with the directories and the symbolic links in it. */
  function RemoveTree(s: State, root: Loc): State {
    var dirs := set l | l in s.dirs && !Within(l, root);
    var symlinks := map l | l in s.symlinks && !Within(l, root) :: s.symlinks[l];
    s.(dirs := dirs, symlinks := symlinks)
  }

  /** Deleting a linked fileset removes the tree below its junction; a missing one is tolerated. */
  function DeleteFileset(s: State, k: FsetKey): State {
    if k !in s.filesets then s
    else
      var rest := s.(filesets := s.filesets - {k});
      if Linked(s.filesets[k].link) then RemoveTree(rest, Loc(k.device, s.filesets[k].root)) else rest
  }

  /** Where a path leads, if a symbolic link is there. */
  function Follow(s: State, l: Loc): Loc {
    if l in s.symlinks then s.symlinks[l] else l
  }

  /** Deleting through a symbolic link deletes the tree it points to; a missing directory is an error. */
  function DeleteDirectory(s: State, l: Loc): Effect {
    if Follow(s, l) in s.dirs then Effect(RemoveTree(s, Follow(s, l)), true) else Effect(s, false)
  }

  function DeleteSymLnk(s: State, l: Loc): State {
    s.(symlinks := s.symlinks - {l})
  }

  // ---------- what the driver reads ----------

  /** ListFilesetQuota */
  function ListQuota(s: State, k: FsetKey): string {
    if k in s.filesets then PrintQuota(s.filesets[k].limitKiB) else ""
  }

  /** The texts the quota listing can give. */
  ghost predicate Listed(quota: string) {
    quota == "" || exists limitKiB: Limit :: quota == PrintQuota(limitKiB)
  }

  /** Of these an error text has the words for a missing number exactly when the number is what is missing. */
  lemma ListedErrors(quota: string)
    requires Listed(quota)
    ensures ParseSize(quota).BadSize? ==>
      ParseSize(quota).error == InvalidNumber && SaysNoNumber(quota, ParseSize(quota).error)
  {
    if limitKiB: Limit :| quota == PrintQuota(limitKiB) {
      ReadPrintedQuota(limitKiB);
    }
    MissingNumberSaysSo(quota);
  }

  /** The number of bytes setQuota takes a limit for; one it cannot read counts as unset. */
  function LimitBytes(limitKiB: Limit): nat {
    if limitKiB < 0 then 0 else limitKiB * KIB % UINT64
  }

  lemma QuotaSeen(s: State, k: FsetKey)
    ensures k in s.filesets ==>
      ParseSize(ListQuota(s, k)) ==
      if s.filesets[k].limitKiB < 0 then BadSize(InvalidNumber) else Bytes(LimitBytes(s.filesets[k].limitKiB))
    ensures k !in s.filesets ==> ParseSize(ListQuota(s, k)) == BadSize(InvalidNumber)
  {
    if k in s.filesets {
      ReadPrintedQuota(s.filesets[k].limitKiB);
    }
  }

  /** A size whose stored limit reads back as itself or as nothing. */
  predicate SizeSurvives(size: nat) {
    size % KIB == 0 || size > UINT64 - KIB
  }

  /** The stored limit of a size reads back as the size exactly for whole KiB, and as unset only at the very top. */
  lemma StoredReadsBack(size: nat)
    requires size < UINT64
    ensures LimitBytes(Kib(size)) == size <==> size % KIB == 0
    ensures LimitBytes(Kib(size)) == 0 <==> size == 0 || size > UINT64 - KIB
  {
    assert Kib(size) <= 0x40_0000_0000_0000;
    var up := Kib(size) * KIB;
    assert size <= up < size + KIB;
    assert up % KIB == 0;
    if up == UINT64 {
      assert up % UINT64 == 0;
    } else {
      assert up < UINT64;
    }
  }
}
