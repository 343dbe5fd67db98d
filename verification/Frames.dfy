/** Where volumes keep their things, and exactly which steps of one volume another one notices. */
module Frames {
  import opened Strings
  import opened Paths
  import opened Backend
  import opened Create
  import opened Progress
  import opened Converge
  import opened Undo

  // ---------- places ----------

  /** The directory of the symbolic links, and a link in it. */
  function Links(d: Driver): Loc {
    LocOf(Info(d, d.primaryCid, d.primaryFs).device, SymlinkRel(d.primaryLink, d.primaryMount))
  }

  function LinkAt(links: Loc, name: string): Loc {
    Loc(links.device, links.path + [name])
  }

  /** A volume's name is an ordinary file name, and its link is in the directory of the links. */
  predicate Named(links: Loc, v: Volume) {
    Component(v.name) && v.slnk == LinkAt(links, v.name)
  }

  lemma ResolvedIsNamed(d: Driver, q: Request)
    requires Component(q.name)
    ensures Named(Links(d), Resolve(d, q))
  {
    ResolvedBelow(SymlinkRel(d.primaryLink, d.primaryMount), q.name);
  }

  /** The volume's fileset as it is, or will be once it is linked. */
  function FinalFileset(v: Volume, s: State): Fileset {
    FinishFileset(v, FilesetAt(s, Key(v)))
  }

  /** The directory in which the volume's data directory is made, as the driver works it out. */
  function Home(v: Volume, s: State): seq<string> {
    if v.isFileset then Resolved(RelPath(FinalFileset(v, s).link, v.info.mount)) else Resolved(v.dirBase)
  }

  function Place(v: Volume, s: State): Loc {
    DataLoc(v, Goal(v, s))
  }

  /** The tree that goes when the volume is deleted. */
  function Root(v: Volume, s: State): Loc {
    if v.isFileset then Loc(v.info.device, FinalFileset(v, s).root) else Place(v, s)
  }

  function DataName(v: Volume): string {
    if v.isFileset then v.name + "-data" else v.name
  }

  lemma SameDirectory(v: Volume, link: string)
    requires !v.isFileset
    ensures DataDir(v, link) == DataDir(v, "")
  {
  }

  lemma PlaceAtHome(v: Volume, s: State)
    requires Component(v.name)
    ensures Place(v, s) == Loc(v.info.device, Home(v, s) + [DataName(v)])
  {
    if v.isFileset {
      DataComponent(v.name);
      ResolvedBelow(RelPath(FinalFileset(v, s).link, v.info.mount), v.name + "-data");
    } else {
      SameDirectory(v, FinalFileset(v, s).link);
      ResolvedBelow(v.dirBase, v.name);
    }
  }

  /** The volume's data is in the tree that goes with it. */
  predicate OwnTree(v: Volume, s: State) {
    Within(Place(v, s), Root(v, s))
  }

  /** A fileset that is made for the volume, or linked for it, holds its data. */
  lemma NewHasOwnTree(v: Volume, s: State)
    requires Sound(v) && (v.isFileset ==> !LinkedNow(v, s))
    ensures OwnTree(v, s)
  {
    if v.isFileset {
      OwnTreeExactly(v.info.mount, v.name);
    }
  }

  lemma OtherPlace(u: Volume, v: Volume, s: State)
    requires u.isFileset && v.isFileset && Component(u.name) && Component(v.name) && u.name != v.name
    ensures Place(u, s) != Place(v, s)
  {
    PlaceAtHome(u, s);
    PlaceAtHome(v, s);
    if u.name + "-data" == v.name + "-data" {
      SameFront(u.name, v.name, "-data");
    }
    var a, b := Place(u, s).path, Place(v, s).path;
    assert a[|a| - 1] == u.name + "-data" && b[|b| - 1] == v.name + "-data";
  }

  // ---------- trees and what is in them ----------

  /** A tree that holds dir/file holds dir, or starts right there. */
  lemma InTreeExactly(r: seq<string>, dir: seq<string>, file: string)
    ensures r <= dir + [file] <==> r <= dir || r == dir + [file]
  {
    if r <= dir + [file] && |r| <= |dir| {
      assert r == (dir + [file])[..|r|] == dir[..|r|];
    }
  }

  /** No link of any name is in the tree. */
  ghost predicate OffLinks(links: Loc, root: Loc) {
    forall name :: Component(name) ==> !Within(LinkAt(links, name), root)
  }

  /** That is: the tree is neither at or above the directory of the links, nor itself in the place of a link. */
  lemma OffLinksExactly(links: Loc, root: Loc)
    ensures OffLinks(links, root) <==>
      !(root.device == links.device &&
        (root.path <= links.path || exists name :: Component(name) && root == LinkAt(links, name)))
  {
    forall name | Component(name)
      ensures Within(LinkAt(links, name), root) <==>
        (root.device == links.device && (root.path <= links.path || root == LinkAt(links, name)))
    {
      InTreeExactly(root.path, links.path, name);
    }
    assert Component("pv");
    assert Within(LinkAt(links, "pv"), root) ==> !OffLinks(links, root);
  }

  /** The volume's data is then in no link's place either. */
  lemma PlaceOffLinks(links: Loc, v: Volume, s: State, name: string)
    requires OffLinks(links, Root(v, s)) && OwnTree(v, s) && Component(name)
    ensures Place(v, s) != LinkAt(links, name)
  {
  }

  // ---------- what a create step changes ----------

  /** Apart from one fileset, one tree and one link the two states are the same. */
  ghost predicate DiffersAt(s: State, s': State, k: FsetKey, root: Loc, link: Loc) {
    && s'.filesets - {k} == s.filesets - {k}
    && (forall l :: !Within(l, root) ==> (l in s.dirs <==> l in s'.dirs))
    && s'.symlinks - {link} == s.symlinks - {link}
  }

  lemma SameElsewhere(s: State, s': State, k: FsetKey, root: Loc, link: Loc, l: Loc)
    requires DiffersAt(s, s', k, root, link)
    ensures l != link ==> (l in s.symlinks <==> l in s'.symlinks)
    ensures l != link && l in s.symlinks && l in s'.symlinks ==> s.symlinks[l] == s'.symlinks[l]
    ensures l != link && !Within(l, root) ==> (Present(s, l) <==> Present(s', l))
  {
    if l != link {
      assert l in s.symlinks <==> l in s.symlinks - {link};
      assert l in s'.symlinks <==> l in s'.symlinks - {link};
      if l in s.symlinks && l in s'.symlinks {
        assert (s.symlinks - {link})[l] == (s'.symlinks - {link})[l];
      }
    }
  }

  lemma SameOtherFileset(s: State, s': State, k: FsetKey, o: FsetKey)
    requires s'.filesets - {k} == s.filesets - {k} && o != k
    ensures FilesetAt(s', o) == FilesetAt(s, o)
  {
    assert o in s.filesets <==> o in s.filesets - {k};
    assert o in s'.filesets <==> o in s'.filesets - {k};
    if o in s.filesets && o in s'.filesets {
      assert (s.filesets - {k})[o] == (s'.filesets - {k})[o];
    }
  }

  /** The directory a program point is about is the one the volume's data goes to. */
  predicate Aims(v: Volume, pc: Pc, s: State) {
    pc.FindDir? || pc.MakeDir? || pc.FindSlnk? || pc.MakeSlnk? ==> pc.target == Goal(v, s)
  }

  lemma KnowsAims(v: Volume, pc: Pc, s: State)
    requires Knows(v, pc, See(v, s))
    ensures Aims(v, pc, s)
  {
    if !v.isFileset {
      SameDirectory(v, Link(See(v, s).fileset));
      SameDirectory(v, FinalFileset(v, s).link);
    }
  }

  lemma FilesetFootprint(v: Volume, pc: Pc, s: State, f: Fault)
    requires OnFileset(pc) && v.isFileset && Knows(v, pc, See(v, s))
    ensures var s' := FilesetStep(v, pc, s, f).state;
      s'.filesets - {Key(v)} == s.filesets - {Key(v)} && s.dirs <= s'.dirs <= s.dirs + {Root(v, s)} &&
        s'.symlinks == s.symlinks
  {
  }

  lemma TreeFootprint(v: Volume, pc: Pc, s: State, f: Fault)
    requires OnTree(pc) && Aims(v, pc, s)
    ensures var s' := TreeStep(v, pc, s, f).state;
      && s'.filesets == s.filesets
      && s'.symlinks - {v.slnk} == s.symlinks - {v.slnk}
      && s.dirs <= s'.dirs <= s.dirs + {Place(v, s)}
      && (!pc.MakeDir? ==> s'.dirs == s.dirs)
  {
  }

  /** What a step of either kind is known to be about. */
  predicate Sure(v: Volume, pc: Pc, s: State) {
    Admitted(pc) && Aims(v, pc, s) && (if v.isFileset then Knows(v, pc, See(v, s)) else OnTree(pc))
  }

  /** Footprint of a create step: its fileset, its own tree and its link. */
  lemma CreateFootprint(v: Volume, pc: Pc, s: State, f: Fault)
    requires Sure(v, pc, s) && OwnTree(v, s)
    ensures DiffersAt(s, BodyStep(v, pc, s, f).state, Key(v), Root(v, s), v.slnk)
    ensures forall l :: l in BodyStep(v, pc, s, f).state.dirs ==> l in s.dirs || Within(l, Root(v, s))
  {
    assert Within(Root(v, s), Root(v, s));
    if OnFileset(pc) {
      FilesetFootprint(v, pc, s, f);
    } else {
      TreeFootprint(v, pc, s, f);
    }
  }

  /** A volume shows the same on two states that differ elsewhere. */
  lemma SameView(u: Volume, s: State, s': State, k: FsetKey, root: Loc, link: Loc)
    requires DiffersAt(s, s', k, root, link) && k != Key(u)
    requires u.slnk != link && !Within(u.slnk, root)
    requires HasPlace(u, See(u, s).fileset) ==> Place(u, s) != link && !Within(Place(u, s), root)
    ensures See(u, s') == See(u, s)
  {
    SameElsewhere(s, s', k, root, link, u.slnk);
    SameOtherFileset(s, s', k, Key(u));
    if HasPlace(u, See(u, s).fileset) {
      PlaceSeen(u, s);
      SameElsewhere(s, s', k, root, link, Place(u, s));
    }
  }

  /** A volume that has a place looks for its data there. */
  lemma PlaceSeen(u: Volume, s: State)
    requires HasPlace(u, See(u, s).fileset)
    ensures Place(u, s) == DataLoc(u, DataDir(u, Link(See(u, s).fileset)))
  {
    if !u.isFileset {
      SameDirectory(u, Link(See(u, s).fileset));
      SameDirectory(u, FinalFileset(u, s).link);
    }
  }

  /** A create step does not change where the volume is going to be. */
  lemma PlaceStays(v: Volume, pc: Pc, s: State, f: Fault)
    requires WfVolume(v) && Sure(v, pc, s)
    ensures var s' := BodyStep(v, pc, s, f).state;
      Goal(v, s') == Goal(v, s) && Place(v, s') == Place(v, s) && Root(v, s') == Root(v, s)
  {
    var s' := BodyStep(v, pc, s, f).state;
    if OnTree(pc) {
      TreeFootprint(v, pc, s, f);
    } else {
      FinalFilesetStays(v, pc, s, f);
    }
    if !v.isFileset {
      SameDirectory(v, FinalFileset(v, s).link);
      SameDirectory(v, FinalFileset(v, s').link);
    }
  }

  lemma FinalFilesetStays(v: Volume, pc: Pc, s: State, f: Fault)
    requires WfVolume(v) && v.isFileset && OnFileset(pc) && Knows(v, pc, See(v, s))
    ensures var s' := FilesetStep(v, pc, s, f).state;
      FinalFileset(v, s').link == FinalFileset(v, s).link && FinalFileset(v, s').root == FinalFileset(v, s).root
  {
  }

  // ---------- what a deletion takes from others ----------

  /** A volume that is all there notices the removal of a tree exactly if its data or its link is in it. */
  lemma SeesTreeExactly(u: Volume, s: State, root: Loc)
    requires HasPlace(u, See(u, s).fileset) && See(u, s).dir && See(u, s).slnk
    ensures See(u, RemoveTree(s, root)) != See(u, s) <==> Within(Place(u, s), root) || Within(u.slnk, root)
  {
    var s' := RemoveTree(s, root);
    PlaceSeen(u, s);
    assert See(u, s').fileset == See(u, s).fileset;
    assert See(u, s').dir <==> !Within(Place(u, s), root);
    assert See(u, s').slnk <==> !Within(u.slnk, root);
  }

  /** Any volume, all there or not, notices nothing if neither is. */
  lemma SeesPastTree(u: Volume, s: State, root: Loc)
    requires !Within(u.slnk, root) && (HasPlace(u, See(u, s).fileset) ==> !Within(Place(u, s), root))
    ensures See(u, RemoveTree(s, root)) == See(u, s)
  {
    if HasPlace(u, See(u, s).fileset) {
      PlaceSeen(u, s);
    }
  }

  /** A tree that holds a volume's data, in terms of paths. */
  lemma TreeHoldsData(u: Volume, s: State, root: Loc)
    requires Component(u.name)
    ensures Within(Place(u, s), root) <==>
      (root.device == u.info.device && (root.path <= Home(u, s) || root.path == Home(u, s) + [DataName(u)]))
  {
    PlaceAtHome(u, s);
    InTreeExactly(root.path, Home(u, s), DataName(u));
  }

  lemma TreeHoldsLink(links: Loc, u: Volume, root: Loc)
    requires Named(links, u)
    ensures Within(u.slnk, root) <==>
      (root.device == links.device && (root.path <= links.path || root.path == links.path + [u.name]))
  {
    InTreeExactly(root.path, links.path, u.name);
  }

  /**
   When deleting a lightweight volume takes something from another one of another name: exactly if its directory is at
   or above the directory the other's data is in, if it is the data directory itself, which takes the name "n-data" in
   the directory of a fileset "n", or if it is at or above the directory of the links. Directories are compared as
   places: whatever cluster and name a filesystem goes by, and however a path is written.
   */
  lemma LightweightDeleteHurtsExactly(links: Loc, u: Volume, v: Volume, s: State)
    requires Named(links, u) && HasPlace(u, See(u, s).fileset) && See(u, s).dir && See(u, s).slnk
    requires Named(links, v) && !v.isFileset && v.name != u.name
    requires v.slnk in s.symlinks && s.symlinks[v.slnk] == Place(v, s) && Place(v, s) in s.dirs
    ensures var dir := Resolved(v.dirBase) + [v.name];
      See(u, DeleteDirectory(s, v.slnk).state) != See(u, s) <==>
        || (v.info.device == u.info.device &&
            (dir <= Home(u, s) || (Resolved(v.dirBase) == Home(u, s) && v.name == DataName(u))))
        || (v.info.device == links.device && dir <= links.path)
  {
    var root := Place(v, s);
    PlaceAtHome(v, s);
    SeesTreeExactly(u, s, root);
    TreeHoldsData(u, s, root);
    TreeHoldsLink(links, u, root);
    LastSame(Resolved(v.dirBase), v.name, Home(u, s), DataName(u));
    LastSame(Resolved(v.dirBase), v.name, links.path, u.name);
  }

  lemma LastSame(a: seq<string>, x: string, b: seq<string>, y: string)
    ensures a + [x] == b + [y] <==> a == b && x == y
  {
    if a + [x] == b + [y] {
      assert (a + [x])[|a|] == x && (b + [y])[|b|] == y;
      assert a == (a + [x])[..|a|] && b == (b + [y])[..|b|];
    }
  }

  /**
   When deleting a fileset volume takes something from another volume: exactly if its junction is at or above the
   directory the other's data is in, or is that data directory, or if it is at or above the directory of the links or in
   the other's link's place.
   */
  lemma FilesetDeleteHurtsExactly(links: Loc, u: Volume, v: Volume, s: State)
    requires Named(links, u) && HasPlace(u, See(u, s).fileset) && See(u, s).dir && See(u, s).slnk
    requires LinkedNow(v, s) && v.name != u.name
    ensures var root := Root(v, s);
      See(u, DeleteFileset(s, Key(v))) != See(u, s) <==>
        || (root.device == u.info.device && (root.path <= Home(u, s) || root.path == Home(u, s) + [DataName(u)]))
        || (root.device == links.device && (root.path <= links.path || root.path == links.path + [u.name]))
  {
    var k := Key(v);
    var rest := s.(filesets := s.filesets - {k});
    assert DeleteFileset(s, k) == RemoveTree(rest, Root(v, s));
    WithoutFileset(u, s, k);
    SeesTreeExactly(u, rest, Root(v, s));
    TreeHoldsData(u, s, Root(v, s));
    TreeHoldsLink(links, u, Root(v, s));
  }

  /** Another fileset's entry does not show. */
  lemma WithoutFileset(u: Volume, s: State, k: FsetKey)
    requires k != Key(u)
    ensures var rest := s.(filesets := s.filesets - {k}); See(u, rest) == See(u, s) && Place(u, rest) == Place(u, s)
  {
    var rest := s.(filesets := s.filesets - {k});
    assert Key(u) in rest.filesets <==> Key(u) in s.filesets;
    assert FilesetAt(rest, Key(u)) == FilesetAt(s, Key(u));
  }

  lemma SeesPastFileset(links: Loc, u: Volume, v: Volume, s: State)
    requires Named(links, u) && v.isFileset && v.name != u.name
    requires LinkedNow(v, s) ==> OffLinks(links, Root(v, s))
    requires HasPlace(u, See(u, s).fileset) && LinkedNow(v, s) ==> !Within(Place(u, s), Root(v, s))
    ensures See(u, DeleteFileset(s, Key(v))) == See(u, s)
  {
    var k := Key(v);
    if k in s.filesets {
      var rest := s.(filesets := s.filesets - {k});
      WithoutFileset(u, s, k);
      if LinkedNow(v, s) {
        assert DeleteFileset(s, k) == RemoveTree(rest, Root(v, s));
        SeesPastTree(u, rest, Root(v, s));
      }
    }
  }

  lemma SeesPastDirectory(links: Loc, u: Volume, v: Volume, s: State)
    requires Named(links, u)
    requires !v.isFileset && OffLinks(links, Root(v, s))
    requires v.slnk !in s.dirs && (v.slnk in s.symlinks ==> s.symlinks[v.slnk] == Place(v, s))
    requires HasPlace(u, See(u, s).fileset) ==> !Within(Place(u, s), Root(v, s))
    ensures See(u, DeleteDirectory(s, v.slnk).state) == See(u, s)
  {
    if v.slnk in s.symlinks {
      SeesPastTree(u, s, Root(v, s));
    }
  }

  // ---------- new volumes do not get into each other's trees ----------

  lemma NewPlaces(v: Volume, s: State)
    requires Sound(v) && v.isFileset && !LinkedNow(v, s)
    ensures Root(v, s) == Loc(v.info.device, [v.name])
    ensures Place(v, s) == Loc(v.info.device, [v.name, v.name + "-data"])
  {
    JunctionPlaces(v.info.mount, v.name);
    assert FinalFileset(v, s).root == NewRoot(v) && FinalFileset(v, s).link == v.junction;
    assert Goal(v, s) == DataPath(v.junction, v.info.mount, v.name);
  }

  /** Two filesets that are new, or not linked yet, never hold each other's data. */
  lemma NewFilesetsApart(u: Volume, v: Volume, s: State)
    requires Sound(u) && Sound(v) && u.isFileset && v.isFileset && u.name != v.name
    requires !LinkedNow(u, s) && !LinkedNow(v, s)
    ensures !Within(Place(u, s), Root(v, s))
  {
    NewPlaces(u, s);
    NewPlaces(v, s);
    HeadsDiffer(u.name, u.name + "-data", v.name);
  }

  lemma HeadsDiffer(a: string, b: string, c: string)
    requires a != c
    ensures !([c] <= [a, b])
  {
    assert [a, b][0] == a;
  }

  /** A lightweight volume's directory holds the data of a new fileset volume only by being its place. */
  lemma NewFilesetInDirectoryExactly(u: Volume, v: Volume, s: State)
    requires Sound(u) && u.isFileset && !LinkedNow(u, s)
    requires !v.isFileset && Component(v.name) && v.name != u.name
    ensures Within(Place(u, s), Root(v, s)) <==>
      (v.info.device == u.info.device && Resolved(v.dirBase) == [u.name] && v.name == u.name + "-data")
  {
    NewPlaces(u, s);
    PlaceAtHome(v, s);
    var dir := Resolved(v.dirBase) + [v.name];
    assert [u.name, u.name + "-data"] == [u.name] + [u.name + "-data"];
    InTreeExactly(dir, [u.name], u.name + "-data");
    LastSame(Resolved(v.dirBase), v.name, [u.name], u.name + "-data");
    InTreeExactly(dir, [], u.name);
    assert [u.name] == [] + [u.name];
    LastSame(Resolved(v.dirBase), v.name, [], u.name);
  }

  // ---------- inputs on which deleting one volume destroys others ----------

  /** A lightweight volume "n-data" in the directory of a fileset "n" has its data directory as its own. */
  lemma DataSuffixCollides(links: Loc, u: Volume, v: Volume, s: State)
    requires Named(links, u) && LinkedNow(u, s) && See(u, s).dir && See(u, s).slnk
    requires Named(links, v) && !v.isFileset && v.name == u.name + "-data" && Resolved(v.dirBase) == Home(u, s)
    requires v.info.device == u.info.device
    requires v.slnk in s.symlinks && s.symlinks[v.slnk] == Place(v, s) && Place(v, s) in s.dirs
    ensures See(u, DeleteDirectory(s, v.slnk).state) != See(u, s)
  {
    LightweightDeleteHurtsExactly(links, u, v, s);
  }

  /**
   A lightweight volume called ".volumes" in the directory of the primary fileset, written "p" or "p/" or "./p", has the
   directory of the links as its own: deleting it deletes every volume's link.
   */
  lemma LinksDirectoryCollides(d: Driver, q: Request, u: Volume, s: State)
    requires !q.isFileset && q.name == ".volumes"
    requires Info(d, d.primaryCid, q.backendFs).device == Info(d, d.primaryCid, d.primaryFs).device
    requires Resolved(q.dirBase) == Resolved(RelPath(d.primaryLink, d.primaryMount))
    requires var v := Resolve(d, q); v.slnk in s.symlinks && s.symlinks[v.slnk] == Place(v, s) && Place(v, s) in s.dirs
    requires Named(Links(d), u)
    ensures !See(u, DeleteDirectory(s, Resolve(d, q).slnk).state).slnk
  {
    var v := Resolve(d, q);
    VolumesBelow(RelPath(d.primaryLink, d.primaryMount), q.name);
    PlaceAtHome(v, s);
    assert Place(v, s) == Links(d);
    TreeHoldsLink(Links(d), u, Links(d));
  }

  /**
   So does a fileset volume that is called like the primary fileset, on the filesystem of the links, whichever cluster
   owns it: it finds that fileset and takes it for its own.
   */
  lemma PrimaryNameCollides(d: Driver, v: Volume, u: Volume, s: State)
    requires v.info.device == Info(d, d.primaryCid, d.primaryFs).device
    requires LinkedNow(v, s) && s.filesets[Key(v)].root == Resolved(RelPath(d.primaryLink, d.primaryMount))
    requires Named(Links(d), u)
    ensures !See(u, DeleteFileset(s, Key(v))).slnk
  {
    VolumesBelow(RelPath(d.primaryLink, d.primaryMount), ".volumes");
    TreeHoldsLink(Links(d), u, Root(v, s));
  }

  /**
   A fileset volume "!n" keeps its data in the fileset "n": deleting "n" takes it, and deleting "!n" leaves it behind.
   No name that trims to itself is like that.
   */
  lemma TrimmedNameCollides(links: Loc, u: Volume, v: Volume, s: State)
    requires Named(links, u) && u.isFileset && LinkedNow(u, s) && See(u, s).dir && See(u, s).slnk
    requires u.name == "!" + v.name
    requires v.isFileset && LinkedNow(v, s) && PlainName(v.name) && v.info.device == u.info.device
    requires s.filesets[Key(u)].link == u.info.mount + "/" + u.name && s.filesets[Key(u)].root == [u.name]
    requires s.filesets[Key(v)].root == [v.name]
    ensures See(u, DeleteFileset(s, Key(v))) != See(u, s)
    ensures Place(u, s) in s.dirs ==> Place(u, s) in DeleteFileset(s, Key(u)).dirs
  {
    BangPlaces(u, v.name, s);
    LastSame(Home(u, s), u.name + "-data", [v.name], u.name + "-data");
    FilesetDeleteHurtsExactly(links, u, v, s);
    TrimBang(v.name);
    HeadsDiffer(v.name, u.name + "-data", u.name);
  }

  lemma BangPlaces(u: Volume, name: string, s: State)
    requires u.isFileset && LinkedNow(u, s) && u.name == "!" + name && Component(u.name) && PlainName(name)
    requires s.filesets[Key(u)].link == u.info.mount + "/" + u.name
    ensures Place(u, s) == Loc(u.info.device, [name, u.name + "-data"])
    ensures Place(u, s).path == Home(u, s) + [u.name + "-data"] == [name] + [u.name + "-data"]
  {
    JunctionPlaces(u.info.mount, u.name);
    TrimBang(name);
    PlaceAtHome(u, s);
    assert FinalFileset(u, s).link == u.info.mount + "/" + u.name;
  }

  lemma TrimBang(name: string)
    requires PlainName(name)
    ensures Trim("!" + name) == name && |name| < |"!" + name|
  {
    TrimEnds(name);
    assert "!" + name + "" == "!" + name;
    TrimAround("!", name, "");
  }
}
