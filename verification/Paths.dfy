/** How absolute paths become paths relative to a filesystem's mount point, and back. */
module Paths {
  import opened Strings

  const VOLUMES := "/.volumes"
  const UNLINKED := "--"

  datatype Target = Path(value: string) | MissingDetails

  /** The first occurrence of the mount point is dropped, then slashes and exclamation marks are trimmed. */
  function RelPath(path: string, mount: string): string {
    Trim(ReplaceFirst(path, mount, ""))
  }

  /** getTargetPath */
  function GetTargetPath(fsetLinkPath: string, fsMountPoint: string, volumeName: string): Target {
    if fsetLinkPath == "" || fsMountPoint == "" then MissingDetails
    else Path(DataPath(fsetLinkPath, fsMountPoint, volumeName))
  }

  function DataPath(link: string, mount: string, volumeName: string): string {
    RelPath(link, mount) + "/" + (volumeName + "-data")
  }

  /** Start-up moves the primary fileset's link path from the owning cluster's mount point to the local one. */
  function Translate(link: string, remoteMount: string, localMount: string): string {
    if remoteMount != localMount then ReplaceFirst(link, remoteMount, localMount) else link
  }

  function SymlinkAbs(link: string): string {
    TrimSuffixSlash(link) + VOLUMES
  }

  function SymlinkRel(link: string, mount: string): string {
    RelPath(link, mount) + VOLUMES
  }

  /** The directory of the links is the one called ".volumes" in that of the primary fileset. */
  lemma VolumesBelow(dir: string, name: string)
    requires name == ".volumes"
    ensures Component(name) && Resolved(dir + VOLUMES) == Resolved(dir) + [name]
  {
    assert "/" + name == VOLUMES;
    assert dir + "/" + name == dir + ("/" + name);
    ResolvedBelow(dir, name);
  }

  lemma RelPathBelow(mount: string, r: string)
    ensures RelPath(mount + r, mount) == Trim(r)
  {
    ReplacePrefix(mount, r, "");
    assert "" + r == r;
  }

  /** The link path below the mount has a component left once slashes and exclamation marks are gone, and no bad end. */
  predicate GoodLink(r: string) {
    Trim(r) != "" && !EndsCut(TrimSuffixSlash(r))
  }

  predicate GoodName(name: string) {
    name != "" && !EndsCut(name)
  }

  // ---------- where a path leads ----------

  /** An ordinary file name. */
  predicate Component(name: string) {
    '/' !in name && name != "" && name != "." && name != ".."
  }

  /** One step down a path: empty and "." components stay, ".." goes up. */
  function Step(at: seq<string>, part: string): seq<string> {
    if part == "" || part == "." then at
    else if part == ".." then (if at == [] then [] else at[..|at| - 1])
    else at + [part]
  }

  function Along(at: seq<string>, parts: seq<string>): seq<string>
    decreases |parts|
  {
    if parts == [] then at else Along(Step(at, parts[0]), parts[1..])
  }

  /** The place a path leads to, as the components below the top. */
  function Resolved(path: string): seq<string> {
    Along([], Split(path, '/'))
  }

  lemma {:induction false} AlongMore(at: seq<string>, parts: seq<string>, last: string)
    ensures Along(at, parts + [last]) == Step(Along(at, parts), last)
    decreases |parts|
  {
    var more := parts + [last];
    if parts == [] {
      assert more[1..] == [];
    } else {
      assert more[1..] == parts[1..] + [last];
      AlongMore(Step(at, parts[0]), parts[1..], last);
    }
  }

  /** A name below a directory leads one step further, however the directory is written. */
  lemma ResolvedBelow(dir: string, name: string)
    requires '/' !in name
    ensures Resolved(dir + "/" + name) == Step(Resolved(dir), name)
    ensures Component(name) ==> Resolved(dir + "/" + name) == Resolved(dir) + [name]
  {
    SplitJoined(dir, name, '/');
    SplitFree(name, '/');
    assert dir + ['/'] + name == dir + "/" + name;
    AlongMore([], Split(dir, '/'), name);
  }

  lemma ResolvedName(name: string)
    requires '/' !in name
    ensures Resolved(name) == Step([], name)
  {
    SplitFree(name, '/');
    assert [name] == [] + [name];
    AlongMore([], [], name);
  }

  lemma DataComponent(name: string)
    requires '/' !in name
    ensures Component(name + "-data")
  {
    assert |name + "-data"| >= 5;
  }

  /** The place of an absolute path below a mount point. */
  function BelowMount(path: string, mount: string): seq<string> {
    var whole, top := Resolved(path), Resolved(mount);
    if top <= whole then whole[|top|..] else whole
  }

  lemma TrimShallow(s: string)
    requires '/' !in s
    ensures '/' !in Trim(s)
  {
    var l, r := TrimSplits(s);
    assert s == l + Trim(s) + r;
  }

  /** A new junction is right below the mount point; the driver looks for the data below its trimmed name. */
  lemma JunctionPlaces(mount: string, name: string)
    requires Component(name)
    ensures Resolved(mount) <= Resolved(mount + "/" + name) && BelowMount(mount + "/" + name, mount) == [name]
    ensures '/' !in Trim(name)
    ensures Resolved(DataPath(mount + "/" + name, mount, name)) == Step([], Trim(name)) + [name + "-data"]
    ensures Component(Trim(name)) ==>
      Resolved(DataPath(mount + "/" + name, mount, name)) == [Trim(name), name + "-data"]
  {
    ResolvedBelow(mount, name);
    TrimShallow(name);
    ResolvedName(Trim(name));
    DataComponent(name);
    assert RelPath(mount + "/" + name, mount) == Trim(name) by {
      assert mount + "/" + name == mount + ("/" + name);
      RelPathBelow(mount, "/" + name);
      TrimSlashed(name);
    }
    ResolvedBelow(Trim(name), name + "-data");
  }

  /** So a new volume's data is in its own fileset if and only if its name survives the trimming. */
  lemma OwnTreeExactly(mount: string, name: string)
    requires Component(name)
    ensures BelowMount(mount + "/" + name, mount) <= Resolved(DataPath(mount + "/" + name, mount, name)) <==>
      Trim(name) == name
  {
    JunctionPlaces(mount, name);
    var data := Step([], Trim(name)) + [name + "-data"];
    assert |name| < |name + "-data"|;
    assert [name] <= data <==> data[0] == name;
    assert data[0] == Trim(name) || data[0] == name + "-data";
    if Trim(name) == name {
      assert Step([], name) == [name];
    }
  }

  /** Losing one trailing slash changes neither the core nor what precedes it. */
  lemma TrimOfLeft(r: string)
    requires Trim(r) != ""
    ensures TrimLeft(TrimSuffixSlash(r)) != ""
    ensures Trim(r) == TrimLeft(TrimSuffixSlash(r)) <==> !EndsCut(TrimSuffixSlash(r))
  {
    var s := TrimSuffixSlash(r);
    var l, e := TrimSplits(r);
    var core := Trim(r);
    var tail := if s == r || e == "" then e else e[..|e| - 1];
    CutOffEnd(l, core, e);
    TrimLeftTail(l, core, tail);
    EndOf(l + core, tail);
    EndOf(l, core);
  }

  lemma CutOffEnd(l: string, core: string, e: string)
    requires core != "" && !EndsCut(core)
    ensures TrimSuffixSlash(l + core + e) ==
            l + core + if TrimSuffixSlash(l + core + e) == l + core + e || e == "" then e else e[..|e| - 1]
  {
    EndOf(l + core, e);
    EndOf(l, core);
  }

  lemma EndOf(a: string, b: string)
    ensures b != "" ==> (EndsCut(a + b) <==> EndsCut(b)) && (a + b)[|a + b| - 1] == b[|b| - 1]
    ensures b == "" ==> a + b == a
  {
  }

  lemma TrimLeftTail(l: string, core: string, tail: string)
    requires AllCut(l) && core != "" && !StartsCut(core)
    ensures TrimLeft(l + core + tail) == core + tail
  {
    TrimLeftSkips(l, core + tail);
    assert l + (core + tail) == l + core + tail;
  }

  lemma Regroup(l: string, t: string, v: string, name: string)
    ensures l + t + v + "/" + name == l + (t + (v + "/" + name)) + ""
  {
  }

  /** Trimming "x/.volumes/name" only touches the two ends. */
  lemma TrimSlinkPath(x: string, name: string)
    requires GoodName(name)
    requires TrimLeft(x) != ""
    ensures Trim(x + VOLUMES + "/" + name) == TrimLeft(x) + (VOLUMES + "/" + name)
  {
    var l := TrimLeftSplits(x);
    var core := TrimLeft(x) + (VOLUMES + "/" + name);
    assert core[0] == TrimLeft(x)[0];
    EndOf(VOLUMES + "/", name);
    EndOf(TrimLeft(x), VOLUMES + "/" + name);
    TrimAround(l, core, "");
    Regroup(l, TrimLeft(x), VOLUMES, name);
  }

  lemma TrimEnds(s: string)
    ensures !StartsCut(Trim(s)) && !EndsCut(Trim(s))
  {
    var _, _ := TrimSplits(s);
  }

  lemma DeletedBelow(mount: string, r: string, name: string)
    requires Trim(r) != "" && GoodName(name)
    ensures RelPath(SymlinkAbs(mount + r) + "/" + name, mount) == TrimLeft(TrimSuffixSlash(r)) + (VOLUMES + "/" + name)
  {
    var s := TrimSuffixSlash(r);
    TrimOfLeft(r);
    assert r != "" by { TrimEmpty(r); }
    SuffixBelow(mount, r);
    assert SymlinkAbs(mount + r) == mount + s + VOLUMES;
    assert mount + s + VOLUMES + "/" + name == mount + (s + VOLUMES + "/" + name);
    RelPathBelow(mount, s + VOLUMES + "/" + name);
    TrimSlinkPath(s, name);
  }

  lemma TwoTails(a: string, b: string, c: string)
    ensures a + b + "/" + c == a + (b + "/" + c)
  {
  }

  lemma CreatedBelow(mount: string, r: string, name: string)
    ensures SymlinkRel(mount + r, mount) + "/" + name == Trim(r) + (VOLUMES + "/" + name)
  {
    RelPathBelow(mount, r);
    TwoTails(Trim(r), VOLUMES, name);
  }

  lemma BadEndsStay(front: string, name: string)
    requires name != ""
    requires front == "" || EndsCut(name)
    ensures StartsCut(front + (VOLUMES + "/" + name)) || EndsCut(front + (VOLUMES + "/" + name))
  {
    var s := front + (VOLUMES + "/" + name);
    assert s[|s| - 1] == name[|name| - 1];
    if front == "" {
      assert s[0] == VOLUMES[0];
    }
  }

  /**
   The symlink path create uses is the one delete recomputes, exactly when the primary fileset is linked below the
   mount at a path that keeps a component and whose end, like the end of the volume name, survives the trimming.
   */
  lemma SymlinkPathsAgree(mount: string, r: string, name: string)
    requires name != ""
    ensures RelPath(SymlinkAbs(mount + r) + "/" + name, mount) == SymlinkRel(mount + r, mount) + "/" + name
            <==> GoodLink(r) && GoodName(name)
  {
    CreatedBelow(mount, r, name);
    if Trim(r) == "" || !GoodName(name) {
      BadEndsStay(Trim(r), name);
      TrimEnds(ReplaceFirst(SymlinkAbs(mount + r) + "/" + name, mount, ""));
    } else {
      GoodEnds(mount, r, name);
    }
  }

  /** With the primary fileset linked at the mount point itself, create and delete use two different paths. */
  lemma LinkedAtMountDisagrees(mount: string, name: string)
    requires mount != "" && mount[|mount| - 1] != '/' && GoodName(name)
    ensures SymlinkRel(mount, mount) + "/" + name == "/.volumes" + "/" + name
    ensures RelPath(SymlinkAbs(mount) + "/" + name, mount) == ".volumes" + "/" + name
  {
    var core := ".volumes" + "/" + name;
    assert mount + "" == mount;
    RelPathBelow(mount, "");
    assert VOLUMES + "/" + name == "/" + core + "";
    assert mount + VOLUMES + "/" + name == mount + ("/" + core + "");
    RelPathBelow(mount, "/" + core + "");
    assert core[|core| - 1] == name[|name| - 1];
    TrimAround("/", core, "");
  }

  lemma GoodEnds(mount: string, r: string, name: string)
    requires Trim(r) != "" && GoodName(name)
    ensures RelPath(SymlinkAbs(mount + r) + "/" + name, mount) == Trim(r) + (VOLUMES + "/" + name)
            <==> !EndsCut(TrimSuffixSlash(r))
  {
    var left := TrimLeft(TrimSuffixSlash(r));
    DeletedBelow(mount, r, name);
    TrimOfLeft(r);
    SameFront(left, Trim(r), VOLUMES + "/" + name);
  }

  lemma SuffixBelow(mount: string, r: string)
    requires r != ""
    ensures TrimSuffixSlash(mount + r) == mount + TrimSuffixSlash(r)
  {
    assert (mount + r)[|mount + r| - 1] == r[|r| - 1];
  }

  lemma SameFront(a: string, b: string, tail: string)
    ensures a + tail == b + tail <==> a == b
  {
    if a + tail == b + tail {
      assert a == (a + tail)[..|a|];
      assert b == (b + tail)[..|b|];
    }
  }

  lemma TranslateBelow(remoteMount: string, localMount: string, r: string)
    ensures Translate(remoteMount + r, remoteMount, localMount) == localMount + r
  {
    ReplacePrefix(remoteMount, r, localMount);
  }

  /** Moving a link path to the local mount point commutes with making it relative. */
  lemma TranslateCommutes(remoteMount: string, localMount: string, r: string)
    ensures Translate(remoteMount + r, remoteMount, localMount) == localMount + r
    ensures RelPath(Translate(remoteMount + r, remoteMount, localMount), localMount) ==
      RelPath(remoteMount + r, remoteMount)
    ensures SymlinkRel(Translate(remoteMount + r, remoteMount, localMount), localMount) ==
      SymlinkRel(remoteMount + r, remoteMount)
  {
    TranslateBelow(remoteMount, localMount, r);
    RelPathBelow(remoteMount, r);
    RelPathBelow(localMount, r);
  }

  lemma TrimSlashed(r: string)
    ensures Trim("/" + r) == Trim(r)
  {
    assert ("/" + r)[1..] == r;
  }

  lemma Rejoin(mount: string, t: string, r: string, tail: string)
    ensures mount + "/" + (t + tail) == mount + "/" + r + tail <==> t == r
  {
    SameFront(t, r, tail);
    var head := mount + "/";
    assert head + r + tail == head + (r + tail);
    assert t + tail == (head + (t + tail))[|head|..];
    assert r + tail == (head + (r + tail))[|head|..];
  }

  /** Rejoined to its mount point, the target path is the link path plus the data directory, for a trimmed rest. */
  lemma TargetRejoins(mount: string, r: string, name: string)
    requires mount != ""
    ensures GetTargetPath(mount + "/" + r, mount, name).Path?
    ensures
      var target := GetTargetPath(mount + "/" + r, mount, name).value;
      mount + "/" + target == mount + "/" + r + ("/" + (name + "-data")) <==> Trim(r) == r
  {
    assert mount + "/" + r == mount + ("/" + r);
    RelPathBelow(mount, "/" + r);
    TrimSlashed(r);
    Rejoin(mount, Trim(r), r, "/" + (name + "-data"));
    assert Trim(r) + "/" + (name + "-data") == Trim(r) + ("/" + (name + "-data"));
  }

  // ---------- the same in so many words ----------

  /** The data of a volume linked at its own name goes to "name/name-data". */
  lemma TargetOfName(mount: string, name: string)
    requires mount != "" && Bare(name)
    ensures GetTargetPath(mount + "/" + name, mount, name) == Path(name + "/" + name + "-data")
  {
    var r := "/" + name + "";
    AtOwnName(mount, name, r);
    RelPathBelow(mount, r);
    TrimExactly("/", name, "");
    DataName(name);
  }

  lemma AtOwnName(mount: string, name: string, r: string)
    requires r == "/" + name + ""
    ensures mount + "/" + name == mount + r
  {
  }

  lemma DataName(name: string)
    ensures name + "/" + (name + "-data") == name + "/" + name + "-data"
  {
  }

  /** The primary fileset's link path below the mount as slashes, a path and perhaps a slash: delete finds the link. */
  lemma LinkPathRecomputed(mount: string, l: string, core: string, tail: string, name: string)
    requires Edging(l) && Bare(core) && (tail == "" || tail == "/")
    requires name != "" && name[|name| - 1] != '!' && name[|name| - 1] != '/'
    ensures var link := mount + l + core + tail;
      && SymlinkAbs(link) + "/" + name == mount + l + core + "/.volumes/" + name
      && SymlinkRel(link, mount) + "/" + name == core + "/.volumes/" + name
      && RelPath(SymlinkAbs(link) + "/" + name, mount) == core + "/.volumes/" + name
  {
    var link, v := mount + l + core + tail, "/.volumes/" + name;
    EndSlash(mount + l + core, tail);
    VolumesName(mount + l + core, name);
    LinkPathMade(mount, l, core, tail, name);
    BareAndMore(core, v);
    Nested(mount, l, core, v);
    RelPathBelow(mount, l + (core + v) + "");
    TrimExactly(l, core + v, "");
    FourTails(core, name);
    FourTails(mount + l + core, name);
  }

  lemma LinkPathMade(mount: string, l: string, core: string, tail: string, name: string)
    requires Edging(l) && Bare(core) && Edging(tail)
    ensures SymlinkRel(mount + l + core + tail, mount) + "/" + name == core + ("/.volumes/" + name)
  {
    FourParts(mount, l, core, tail);
    CreatedBelow(mount, l + core + tail, name);
    TrimExactly(l, core, tail);
    VolumesText(name);
  }

  lemma FourParts(a: string, b: string, c: string, d: string)
    ensures a + b + c + d == a + (b + c + d)
  {
  }

  lemma VolumesText(name: string)
    ensures VOLUMES + "/" + name == "/.volumes/" + name
  {
  }

  lemma VolumesName(dir: string, name: string)
    ensures dir + VOLUMES + "/" + name == dir + ("/.volumes/" + name)
  {
  }

  lemma FourTails(dir: string, name: string)
    ensures dir + "/.volumes/" + name == dir + ("/.volumes/" + name)
  {
  }

  lemma EndSlash(front: string, tail: string)
    requires front != "" && front[|front| - 1] != '/' && (tail == "" || tail == "/")
    ensures TrimSuffixSlash(front + tail) == front
  {
    assert tail == "/" ==> (front + tail)[..|front|] == front;
    assert tail == "" ==> front + tail == front;
  }

  lemma BareAndMore(core: string, v: string)
    requires Bare(core) && v != "" && v[|v| - 1] != '!' && v[|v| - 1] != '/'
    ensures Bare(core + v)
  {
  }

  lemma Nested(mount: string, l: string, core: string, v: string)
    ensures mount + l + core + v == mount + (l + (core + v) + "")
  {
  }

  /** Components joined by slashes lead down those components; a slash at either end does not count. */
  lemma {:induction false} ResolvedExactly(parts: seq<string>)
    requires forall i :: 0 <= i < |parts| ==>
      '/' !in parts[i] && parts[i] != "" && parts[i] != "." && parts[i] != ".."
    ensures parts != [] ==> Resolved(Join(parts, '/')) == parts
    ensures Resolved("") == []
  {
    AlongMore([], [], "");
    assert Split("", '/') == [] + [""];
    if parts != [] {
      SplitJoin(parts, '/');
      AlongParts([], parts);
    }
  }

  lemma {:induction false} AlongParts(at: seq<string>, parts: seq<string>)
    requires forall i :: 0 <= i < |parts| ==> Component(parts[i])
    ensures Along(at, parts) == at + parts
    decreases |parts|
  {
    if parts != [] {
      AlongParts(at + [parts[0]], parts[1..]);
      assert [parts[0]] + parts[1..] == parts;
      assert at + [parts[0]] + parts[1..] == at + parts;
    }
  }

  /** A slash or a dot behind a path changes nothing, two dots take its last component away. */
  lemma ResolvedDots(path: string)
    ensures Resolved(path + "/") == Resolved(path) && Resolved(path + "/" + ".") == Resolved(path)
    ensures var at := Resolved(path); Resolved(path + "/" + "..") == if at == [] then [] else at[..|at| - 1]
  {
    assert path + "/" + "" == path + "/";
    ResolvedBelow(path, "");
    ResolvedBelow(path, ".");
    ResolvedBelow(path, "..");
  }
}
